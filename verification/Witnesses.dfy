/** Concrete clusters and templates: one whose client config is served, and one for each way a property can fail. */
module Witnesses {

  import opened Ordering
  import opened Resources
  import opened Json
  import opened Engine
  import opened Routing
  import opened Endpoints
  import opened Controller
  import opened Collected
  import opened Closure
  import opened Client
  import opened Advertised
  import opened ClientTags
  import opened Agreement
  import opened Template
  import opened DnsGraph
  import opened Dependency
  import opened Counters

  const PROTOCOLS := [ProtocolConfig("hysteria2", 443)]
  const USER := User("u", "")

  /** A node that is both inbound and outbound, in the hk group, with the given name and whitelist. */
  function SoloNode(name: string, allowedOutbounds: seq<string>): Node {
    Node(name, map[], "h", "r", ["hk"], [Inbound, Outbound], PROTOCOLS, "", 0, [], allowedOutbounds,
         NodeStatus(EndpointsOf(PROTOCOLS, "h"), "", None))
  }

  /** The cluster of one such node and one user. */
  function Solo(name: string, allowedOutbounds: seq<string>): Cluster {
    Cluster([SoloNode(name, allowedOutbounds)], [], [USER], map[], [], map[], map["u" := "id"], map[])
  }

  lemma SoloIsWellFormed(name: string, allowedOutbounds: seq<string>)
    ensures WellFormed(Solo(name, allowedOutbounds)) && Reconciled(Solo(name, allowedOutbounds))
    ensures CompleteCredentials(Solo(name, allowedOutbounds)) && HasCredential(Solo(name, allowedOutbounds), USER, "id")
  {}

  function SoloPath(name: string): Path { Path(SoloNode(name, []), SelfRef(SoloNode(name, [])), Entry("h", 443)) }

  function SoloInput(name: string): ClientInput {
    ClientInput(USER, "id", [], [SoloNode(name, [])], map[name := SoloNode(name, [])], map[], {}, {}, {}, {})
  }

  lemma FilterOne<T>(f: T -> bool, x: T)
    requires f(x)
    ensures Filter(f, [x]) == [x]
  {
    assert [x][..0] == [];
  }

  lemma IndexOne(node: Node)
    ensures IndexNodes([node]) == map[node.name := node]
  {
    assert [node][..0] == [];
  }

  /** What the handler assembles from such a cluster. */
  lemma SoloHandled(name: string)
    ensures HandlerInput(Solo(name, []), USER, "id") == SoloInput(name)
  {
    hide Filter, IndexNodes, EndpointsOf, Candidates;
    var node, input := SoloNode(name, []), HandlerInput(Solo(name, []), USER, "id");
    FilterOne(IsInbound(), node);
    FilterOne(IsOutbound(), node);
    IndexOne(node);
    assert input.externalsByName == map[] && input.offline == {} && input.policyOnly == {};
  }

  lemma SoloEntry(name: string)
    ensures EntryOf(SoloInput(name), SoloNode(name, [])) == Some(Entry("h", 443))
  {
    assert PROTOCOLS[0] in PROTOCOLS;
    EndpointRoundTrip(PROTOCOLS, "h", "hysteria2");
    hide EndpointsOf, FindEntryEndpoint;
  }

  /** The node is offered to the user through itself, in the hk group. */
  lemma SoloIsAdvertised(name: string)
    ensures SoloPath(name) in Paths(SoloInput(name), [SoloNode(name, [])])
    ensures Kept(SoloInput(name), SoloPath(name).ref, "hk")
  {
    var input, node := SoloInput(name), SoloNode(name, []);
    hide EntryOf, EndpointsOf, Paths, RefsByName;
    SoloEntry(name);
    ReachableIsListed(input, node, name);
    assert RefFor(input, node, name) == Some(SelfRef(node));
    assert Kept(input, SelfRef(node), "hk");
    PathFacts(input, [node], SoloPath(name));
  }

  /** The hypotheses of the agreement theorems are met, and a proxy is advertised: they say something. */
  lemma SomethingIsAdvertised()
    ensures var c := Solo("a", []); var input := HandlerInput(c, USER, "id");
            && WellFormed(c) && Reconciled(c) && CompleteCredentials(c) && HasCredential(c, USER, "id") && HashFreeUsers(c.users)
            && BuiltFrom(c, USER, "id", input) && ClientConfigOf(input) == Ok(OutboundsOf(input))
            && exists o :: o in OutboundsOf(input) && o.Proxy? && o.tag == "a" && o.server == "h" && o.port == 443
  {
    var c, input, p := Solo("a", []), SoloInput("a"), SoloPath("a");
    SoloIsWellFormed("a", []);
    SoloHandled("a");
    SoloIsAdvertised("a");
    SoloPlan("a");
    hide HandlerInput, Paths, OutboundsOf, Reconciled, CompleteCredentials, WellFormed;
    assert Isolated(input, {}) == input;
    ProxyShape(input, Paths(input, input.inboundNodes), ProxyOf(input, p));
    OutboundMember(input, ProxyOf(input, p));
  }

  lemma SoloPlan(name: string)
    ensures ClientPlan(SoloInput(name)).Ok? && Isolated(SoloInput(name), ClientPlan(SoloInput(name)).value.targets) == SoloInput(name)
  {
    assert SortBy([], PolicyLe) == [];
  }

  lemma SoloAdmitsNoPolicy(name: string, allowedOutbounds: seq<string>)
    ensures var c := Solo(name, allowedOutbounds); forall p :: !AdmittedRoute(c, c.nodes[0], p)
  {
    hide SortedNodes, SortedExternals;
  }

  /** A dual-role node whose whitelist leaves itself out has a rule to an outbound it does not emit. */
  lemma SelfRuleDangles()
    ensures var c := Solo("a", ["b"]); WellFormed(c) && !RulesClosed(ConfigOf(InputOf(c, c.nodes[0])))
  {
    hide ConfigOf, InputOf, RulesClosed, WellFormed, AdmittedRoute, EndpointsOf, GlobalTarget;
    var c := Solo("a", ["b"]);
    SoloIsWellFormed("a", ["b"]);
    SoloAdmitsNoPolicy("a", ["b"]);
    assert GroupAllows(c, USER, "a") && USER in c.users;
    ClusterReferenceClosure(c, c.nodes[0]);
  }

  lemma SoloIsWellNamed(name: string)
    requires HashFree(name)
    ensures WellNamed(SoloInput(name))
  {}

  lemma HkTakesItsSelector()
    ensures NameTaken(SoloInput("hk"), "hk")
  {
    hide EndpointsOf, EntryOf;
    var input, node := SoloInput("hk"), SoloNode("hk", []);
    SoloEntry("hk");
    assert node in input.inboundNodes && RefFor(input, node, "hk") == Some(SelfRef(node));
    assert "hk" in SelfRef(node).clientGroups && Kept(input, SelfRef(node), "hk");
    assert Offers(input, node, "hk");
  }

  /** A dual-role node named hk and offered in the hk group gives its tag to a proxy and to a selector. */
  lemma NodeNamedHkCollides()
    ensures var c := Solo("hk", []); var input := HandlerInput(c, USER, "id");
            WellFormed(c) && !NoDup(TagList(OutboundsOf(input)))
  {
    ReservedHashFree("hk");
    hide OutboundsOf, HandlerInput, WellFormed, WellNamed, NameTaken, Solo, SoloInput, NoDup, TagList;
    SoloIsWellFormed("hk", []);
    SoloHandled("hk");
    SoloIsWellNamed("hk");
    HkTakesItsSelector();
    ClientTagsUnique(SoloInput("hk"));
  }

  // ---------------------------------------------------------------- policies

  const ANY := Selector([], true, (labels: Labels) => true)

  /** A policy of every node, to every target, with a recorded egress. */
  function RouteAll(resolved: string): Policy {
    Policy("p", ANY, ANY, Criteria(["x.example"], [], [], [], []), true, ROUTE, 0, "", resolved)
  }

  /** One dual-role node with a relay port, one policy, and no user. */
  function Governed(resolved: string): Cluster {
    Cluster([SoloNode("a", []).(relayPort := 1080)], [], [], map[], [RouteAll(resolved)], map[], map[], map[])
  }

  lemma SortOne<T>(x: T, le: (T, T) -> bool)
    ensures SortBy([x], le) == [x] && SortBy([], le) == []
  {}

  lemma GovernedResolves(resolved: string)
    ensures var c, p := Governed(resolved), RouteAll(resolved); var node := c.nodes[0];
            WellFormed(c) && AdmittedRoute(c, node, p) && AdmittedPolicies(c, node) == [p] && GlobalTarget(c, p) == "a"
  {
    var c, p := Governed(resolved), RouteAll(resolved);
    var node := c.nodes[0];
    hide EndpointsOf;
    SortOne(node, NodeLe);
    assert SortedNodes(c) == [node] && SortedExternals(c) == [];
    FilterOne(SelectedNode(p), node);
    assert Candidates(p, [node], []) == ["a"];
    assert Resolve(p, [node], []) == Resolved("a");
    assert FindNode([node], "a") == Some(node);
    FilterOne(Admission(node, [node], []), p);
  }

  /** With a stale recorded egress the builders do not use the target the policy resolves to. */
  lemma StaleEgressIsUsed()
    ensures var c, p := Governed("b"), RouteAll("b");
            WellFormed(c) && AdmittedRoute(c, c.nodes[0], p) && Egress(InputOf(c, c.nodes[0]), p) != GlobalTarget(c, p)
  {
    hide InputOf, Egress, AdmittedRoute, GlobalTarget, WellFormed;
    GovernedResolves("b");
    EgressIsGlobalIffFresh(Governed("b"), Governed("b").nodes[0], RouteAll("b"));
  }

  const AWAY := External("e", map[], "trojan", "h", 443, false, "elsewhere", [], [])

  lemma {:induction false} NoUsersNoRules(input: Input, targets: seq<string>)
    requires input.users == []
    ensures GenericRules(input, targets) == []
  {
    if targets != [] { NoUsersNoRules(input, targets[..|targets| - 1]); }
  }

  lemma GovernedEgress()
    ensures var c := Governed(""); var a := InputOf(c, c.nodes[0]);
            Egress(a, RouteAll("")) == "a" && Usable(a, "a") && a.policies == [RouteAll("")]
  {
    var c, p := Governed(""), RouteAll("");
    var node := c.nodes[0];
    var a := InputOf(c, node);
    GovernedResolves("");
    assert a.policies == AdmittedPolicies(c, node);
    hide InputOf, AdmittedRoute, GlobalTarget, WellFormed, AdmittedPolicies;
    EgressIsGlobalIffFresh(c, node, p);
    TargetIsKnown(c, node, p);
    KnownAreClusterResources(c, node);
    assert "a" !in a.externalsByName;
    assert a.nodesByName["a"] in c.nodes && a.nodesByName["a"] == node;
  }

  lemma GovernedHasARule()
    ensures var c := Governed(""); ConfigOf(InputOf(c, c.nodes[0])).rules != []
  {
    var c, p := Governed(""), RouteAll("");
    var a := InputOf(c, c.nodes[0]);
    GovernedEgress();
    SortOne(p, PolicyLe);
    hide InputOf, Egress, Usable, GenericRules, Targets, Relays, AuthUsers, ClientListeners, AllExits, Dedup;
    assert [p][..0] == [];
    assert RulesOf(a, p) != [];
  }

  /** The same cluster with an external of another region that the policy also selects. */
  function Contested(): Cluster { Governed("").(externals := [AWAY]) }

  lemma ContestedIsWellFormed()
    ensures WellFormed(Contested())
  {
    hide EndpointsOf;
  }

  lemma ContestedAdmitsNone()
    ensures AdmittedPolicies(Contested(), Contested().nodes[0]) == []
  {
    var c, p := Contested(), RouteAll("");
    var node := c.nodes[0];
    ContestedIsWellFormed();
    hide WellFormed, EndpointsOf, SortedNodes, SortedExternals, Admits, Filter;
    SelectingIsNotAdmitted(c, AWAY, node, p);
    FilterMembers(Admission(node, SortedNodes(c), SortedExternals(c)), c.policies);
    HasMember(AdmittedPolicies(c, node));
  }

  lemma NothingToRule(b: Input)
    requires b.policies == [] && b.users == []
    ensures ConfigOf(b).rules == []
  {
    hide Targets, GenericRules, Relays, ClientListeners, AllExits, Dedup;
    NoUsersNoRules(b, Targets(b, IsSelfExit(b.node)));
    assert SortedPolicies(b) == [];
  }

  lemma ContestedHasNoRule()
    ensures var c := Contested(); WellFormed(c) && ConfigOf(InputOf(c, c.nodes[0])).rules == []
  {
    var c := Contested();
    ContestedIsWellFormed();
    ContestedAdmitsNone();
    hide WellFormed, EndpointsOf, ConfigOf, AdmittedPolicies, KnownNodes, KnownExternals, Discovered, Filter;
    assert SortedUsers(c, c.nodes[0]) == [];
    NothingToRule(InputOf(c, c.nodes[0]));
  }

  /** Deleting that external changes the node's config, and the mapper, finding it gone, does not enqueue the node. */
  lemma DeletionIsMissed()
    ensures var c0, c1 := Governed(""), Contested(); var node := c1.nodes[0];
            && Adds(c0, c1, AWAY) && ConfigOf(InputOf(c0, node)) != ConfigOf(InputOf(c1, node))
            && !Affected(c0, AWAY.name, AWAY.region, node)
  {
    GovernedHasARule();
    ContestedHasNoRule();
    var c0, c1 := Governed(""), Contested();
    hide InputOf, ConfigOf, WellFormed, EndpointsOf;
    assert c0.externals == [] + [] && c1.externals == [] + [AWAY] + [];
    assert Adds(c0, c1, AWAY);
    AfterDeletionOnlyRegion(c0, c1, AWAY, c1.nodes[0]);
  }

  // ---------------------------------------------------------------- counter names

  lemma TwoHashes()
    ensures FirstHash("u#v#n") == 1 && LastHash("u#v#n") == 3
  {
    var v := "u#v#n";
    assert v[0] == 'u' && v[1] == '#' && v[3] == '#' && v[4] == 'n';
  }

  /** With two '#' the parsers read different users and nodes from one name. */
  lemma ParsersDisagree()
    ensures ParseUserCounterName(CounterName("u#v#n", UPLINK)) == Some(Counter("u", "v#n", UPLINK))
    ensures NormalizeCounterName(CounterName("u#v#n", UPLINK)) == Some(Counter("u#v", "n", UPLINK))
  {
    var v := "u#v#n";
    TwoHashes();
    DirectionPlain(UPLINK);
    assert v[..1] == "u" && v[2..] == "v#n" && v[..3] == "u#v" && v[4..] == "n";
    assert '>' !in v;
    hide ParseUserCounterName, NormalizeCounterName, CutFirst, CutLast, CounterName, FirstHash, LastHash;
    ParsePrinted(v, UPLINK);
    CutFirstOf([v, "traffic", UPLINK], v, UPLINK);
    CutLastOf(["user", v, "traffic", UPLINK], v, UPLINK);
  }

  // ---------------------------------------------------------------- DNS wiring

  /** The hk selector over one proxy with a hostname. */
  const HOST_OUTBOUNDS: seq<Object> :=
    [map["tag" := Str("hk"), "outbounds" := Arr([Str("p")])], map["tag" := Str("p"), "server" := Str("h.example")]]

  function HostSetup(servers: seq<Json>, isAddress: string -> bool): Setup { Setup(servers, HOST_OUTBOUNDS, {"hk", "p"}, isAddress) }

  lemma HostOutbounds(servers: seq<Json>, isAddress: string -> bool)
    requires !isAddress("h.example")
    ensures Generated(HOST_OUTBOUNDS) && ReachesHost(HostSetup(servers, isAddress), "hk")
  {
    var hk, p := HOST_OUTBOUNDS[0], HOST_OUTBOUNDS[1];
    assert hk in HOST_OUTBOUNDS && p in HOST_OUTBOUNDS;
    assert Items(Get(hk, "outbounds")) == [Str("p")] && Str("p") in [Str("p")];
    assert Selects(hk, "p") && !IsSelector(p);
    assert IsHost(HostSetup(servers, isAddress), p, "p");
    forall o, m, x | o in HOST_OUTBOUNDS && x in HOST_OUTBOUNDS && Selects(o, m) && Get(x, "tag") == Str(m) ensures !IsSelector(x) {
      assert o == hk ==> m == "p";
    }
  }

  lemma HkMode()
    ensures AutoSelector({"hk", "p"}) == Some("hk")
    ensures forall m :: m in AvailableModes({"hk", "p"}) <==> m == MODES[0]
  {
    var ms := AvailableModes({"hk", "p"});
    FilterMembers(IsAvailable({"hk", "p"}), MODES);
    assert MODES[0] in MODES && MODES[0] in ms && ms[0] in ms;
  }

  lemma {:induction false} NoConflict(servers: seq<Json>, ms: seq<Mode>)
    requires forall m :: m in ms ==> !HasServer(servers, RegionalTag(m))
    ensures Conflict(servers, ms).None?
  {
    if ms != [] { NoConflict(servers, ms[1..]); }
  }

  const PROXY_SERVER := Obj(map["tag" := Str(PROXY_DNS)])

  /** A local server that is looked up and reached directly, but resolves through proxy-dns. */
  const LEANING_LOCAL := Obj(map["tag" := Str(LOCAL_DNS), "domain_resolver" := Str(PROXY_DNS)])

  lemma LeaningPremises(isAddress: string -> bool)
    requires !isAddress("h.example")
    ensures Premises(HostSetup([PROXY_SERVER, LEANING_LOCAL], isAddress)) && Premises(HostSetup([PROXY_SERVER], isAddress))
  {
    var both, one := [PROXY_SERVER, LEANING_LOCAL], [PROXY_SERVER];
    HostOutbounds(both, isAddress);
    HkMode();
    ReservedTags(MODES[0]);
    assert HasTag(both[0], PROXY_DNS) && HasTag(one[0], PROXY_DNS) && HasTag(both[1], LOCAL_DNS);
    hide Generated, RegionalTag, AvailableModes, ReachesHost;
    NoConflict(both, AvailableModes({"hk", "p"}));
    NoConflict(one, AvailableModes({"hk", "p"}));
  }

  /** Without a resolver of its own, the hostname proxy is looked up with proxy-dns, which dials through it;
      the bootstrap resolver breaks that cycle. */
  lemma BootstrapBreaksTheCycle(isAddress: string -> bool)
    requires !isAddress("h.example")
    ensures var x := HostSetup([PROXY_SERVER], isAddress);
            && Premises(x) && Acyclic(Wired(x)) && !Acyclic(Wired(x).(outbounds := x.outbounds))
  {
    var x := HostSetup([PROXY_SERVER], isAddress);
    LeaningPremises(isAddress);
    HostOutbounds(x.servers, isAddress);
    HkMode();
    assert ResolverOf(PROXY_SERVER.fields).None? && Needs(x, PROXY_SERVER).None?;
    hide Premises, Wired, Acyclic, Needs, ReachesHost, AutoSelector, AvailableModes;
    PlainTemplatesAreSafe(x);
    BootstrapIsNeeded(x, "hk");
  }

  /** Distinct tags, a local server without detour, resolvers that can be ordered, and still a cycle: local is told to
      look the proxy up, and resolves through proxy-dns, which dials through that proxy. */
  lemma LeaningLocalClosesACycle(isAddress: string -> bool)
    requires !isAddress("h.example")
    ensures var x := HostSetup([PROXY_SERVER, LEANING_LOCAL], isAddress);
            && Premises(x) && ResolversOrdered(x) && !Get(LEANING_LOCAL.fields, "detour").Str? && !Acyclic(Wired(x))
  {
    var x := HostSetup([PROXY_SERVER, LEANING_LOCAL], isAddress);
    LeaningPremises(isAddress);
    HostOutbounds(x.servers, isAddress);
    LeaningOrdered(isAddress);
    LeaningReaches(isAddress);
    hide Premises, Wired, Acyclic, ReachesHost, LocalNeeds, ResolversOrdered;
    HkMode();
    assert WillDial(x, PROXY_DNS, "hk");
    DnsBootstrapSafety(x);
  }

  lemma LeaningOrdered(isAddress: string -> bool)
    ensures ResolversOrdered(HostSetup([PROXY_SERVER, LEANING_LOCAL], isAddress))
  {
    var x := HostSetup([PROXY_SERVER, LEANING_LOCAL], isAddress);
    var f: string -> nat := t => if t == LOCAL_DNS then 1 else 0;
    PlainFolds(AvailableModes(x.has));
    assert ResolverOf(PROXY_SERVER.fields).None? && Needs(x, PROXY_SERVER).None?;
    assert Needs(x, LEANING_LOCAL) == Some(PROXY_DNS);
    hide Needs, AvailableModes, Fold;
    assert TemplateRanks(f, x);
  }

  lemma LeaningReaches(isAddress: string -> bool)
    ensures LocalNeeds(HostSetup([PROXY_SERVER, LEANING_LOCAL], isAddress), PROXY_DNS)
  {
    var x := HostSetup([PROXY_SERVER, LEANING_LOCAL], isAddress);
    PlainFolds(AvailableModes(x.has));
    assert x.servers[1] in x.servers && Needs(x, LEANING_LOCAL) == Some(PROXY_DNS);
    hide AvailableModes, Fold, Needs;
    assert Resolves(x, LOCAL_DNS, PROXY_DNS);
    LocalNeedsItself(x);
    LocalNeedsStep(x, LOCAL_DNS, PROXY_DNS);
  }

  const HOST_SERVER := Obj(map["tag" := Str(PROXY_DNS), "server" := Str("dns.example")])

  /** A proxy-dns given by hostname and without resolver falls back to itself, though the template names no resolver. */
  lemma HostnameProxyDnsStaysCyclic(isAddress: string -> bool)
    requires !isAddress("dns.example")
    ensures var x := Setup([HOST_SERVER], [], {}, isAddress);
            Premises(x) && ResolverOf(HOST_SERVER.fields).None? && !Acyclic(Wired(x))
  {
    var x := Setup([HOST_SERVER], [], {}, isAddress);
    assert Needs(x, HOST_SERVER) == Some(PROXY_DNS);
    SelfNeedIsCyclic(x);
  }

  const SELF_RESOLVING := Obj(map["tag" := Str(PROXY_DNS), "domain_resolver" := Str(PROXY_DNS)])

  /** A template whose proxy-dns resolves its own address through itself keeps that cycle when merged. */
  lemma SelfResolvingTemplateStaysCyclic(isAddress: string -> bool)
    ensures var x := Setup([SELF_RESOLVING], [], {}, isAddress); Premises(x) && !Acyclic(Wired(x))
  {
    var x := Setup([SELF_RESOLVING], [], {}, isAddress);
    assert Needs(x, SELF_RESOLVING) == Some(PROXY_DNS);
    SelfNeedIsCyclic(x);
  }

  lemma SelfNeedIsCyclic(x: Setup)
    requires |x.servers| == 1 && HasTag(x.servers[0], PROXY_DNS) && x.outbounds == [] && x.has == {}
    requires Needs(x, x.servers[0]) == Some(PROXY_DNS)
    ensures Premises(x) && !Acyclic(Wired(x))
  {
    FilterMembers(IsAvailable({}), MODES);
    HasMember(AvailableModes({}));
    assert AvailableModes({}) == [] && x.servers[0] in x.servers;
    PlainFolds([]);
    hide Needs, AvailableModes, Fold, Wired, Acyclic;
    forall f: string -> nat ensures !TemplateRanks(f, x) {}
    DnsBootstrapSafety(x);
  }
}
