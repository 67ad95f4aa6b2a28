/** What a node is given to run, off the fields of its input: order, externals, listeners, relayed traffic, counters. */
module Serving {

  import opened Ordering
  import opened Resources
  import opened Intent
  import opened Engine
  import opened Routing
  import opened Controller
  import opened Collected
  import opened Closure
  import opened Confinement
  import opened Deciding
  import opened Agreement
  import opened Governing

  // ---------------------------------------------------------------- the order of what is collected

  ghost predicate InOrder(names: seq<string>) { forall i, j :: 0 <= i < j < |names| ==> names[i] == names[j] || Before(names[i], names[j]) }

  lemma AscendingNames(names: seq<string>)
    requires Sorted(names, StrLe)
    ensures InOrder(names)
  {
    forall i, j | 0 <= i < j < |names| ensures names[i] == names[j] || Before(names[i], names[j]) { StrLeIsBefore(names[i], names[j]); }
  }

  lemma {:induction false} FilterSorted<T>(f: T -> bool, s: seq<T>, le: (T, T) -> bool)
    requires Sorted(s, le)
    ensures Sorted(Filter(f, s), le) && forall x :: x in Filter(f, s) ==> x in s
  {
    if s != [] {
      var front, x := s[..|s| - 1], s[|s| - 1];
      FilterSorted(f, front, le);
      assert s == front + [x];
      forall y | y in front ensures le(y, x) {
        var k :| 0 <= k < |front| && front[k] == y;
        assert s[k] == y;
      }
    }
  }

  /** Users, peers and discovered externals reach the engine in ascending order of name, however they were listed. */
  lemma CollectedInOrder(c: Cluster, i: Node)
    ensures var input := InputOf(c, i);
            InOrder(UserNames(input.users)) && InOrder(NodeNames(input.outboundNodes)) && InOrder(ExternalNames(input.externals))
  {
    var input := InputOf(c, i);
    NameOrders();
    SortBySorts(c.nodes, NodeLe);
    SortBySorts(c.externals, ExternalLe);
    SortBySorts(c.users, UserLe);
    FilterSorted(Peering(i), SortedNodes(c), NodeLe);
    FilterSorted(Discoverable(Taken(i, c.nodes), i), SortedExternals(c), ExternalLe);
    assert Sorted(input.users, UserLe) && Sorted(input.outboundNodes, NodeLe) && Sorted(input.externals, ExternalLe);
    hide InputOf, SortBy, IsOrder;
    AscendingNames(UserNames(input.users));
    AscendingNames(NodeNames(input.outboundNodes));
    AscendingNames(ExternalNames(input.externals));
  }

  // ---------------------------------------------------------------- usable externals

  ghost predicate FirstOfName(es: seq<External>, e: External) {
    exists k :: 0 <= k < |es| && es[k] == e && forall j :: 0 <= j < k ==> es[j].name != e.name
  }

  lemma FirstOfNameSnoc(es: seq<External>, last: External, e: External)
    ensures FirstOfName(es + [last], e) <==> FirstOfName(es, e) || (e == last && last.name !in NamesOf(es))
  {
    assert last.name in NamesOf(es) <==> exists j :: 0 <= j < |es| && es[j].name == last.name;
    hide NamesOf;
    var all := es + [last];
    assert forall k :: 0 <= k < |es| ==> all[k] == es[k];
    if e == last && forall j :: 0 <= j < |es| ==> es[j].name != last.name { assert all[|es|] == e; }
    if k :| 0 <= k < |es| && es[k] == e && forall j :: 0 <= j < k ==> es[j].name != e.name { assert all[k] == e; }
  }

  lemma {:induction false} UsableIff(input: Input, es: seq<External>, e: External)
    ensures e in UsableExternals(input, es) <==> FirstOfName(es, e) && ExternalUsable(input, e)
  {
    if es != [] {
      var front, last := es[..|es| - 1], es[|es| - 1];
      hide ExternalUsable, FirstOfName, NamesOf;
      UsableIff(input, front, e);
      FirstOfNameSnoc(front, last, e);
      assert es == front + [last];
    }
  }

  /** An external the input lists is used if it is the first of its name, no node the input knows has that name, and
      its secrets are complete. */
  lemma UsedIff(input: Input, e: External)
    ensures e in UsableExternals(input, input.externals) <==>
            && FirstOfName(input.externals, e) && Complete(e, input.externalCreds)
            && e.name != input.node.name && e.name !in input.nodesByName && forall n :: n in input.outboundNodes ==> n.name != e.name
  {
    UsableIff(input, input.externals, e);
    RequiredIsComplete(e, input.externalCreds);
    hide UsableExternals, FirstOfName, HasRequiredCreds, Complete;
  }

  // ---------------------------------------------------------------- relayed traffic

  /** Traffic that did not come in by the client listener, under an identity that is no virtual user's. */
  ghost predicate Relayed(input: Input, q: Request) {
    q.inbound != InboundTag(input.node) && forall u, n :: u in input.users ==> q.identity != VirtualUser(u.name, n)
  }

  lemma NoVirtualUser(input: Input, n: string, q: Request)
    requires Relayed(input, q)
    ensures q.identity !in AuthUsers(input, input.users, n)
  {}

  lemma RulesOfSkip(input: Input, p: Policy, q: Request)
    requires Relayed(input, q)
    ensures FirstMatch(RulesOf(input, p), q).None?
  {
    var name := Egress(input, p);
    NoVirtualUser(input, name, q);
    assert q.inbound != InboundTag(input.node);
    hide Relayed, Egress, Usable;
    var guards := AuthUsers(input, input.users, name);
    if p.action != REJECT && Usable(input, name) && GuardsEgress(p) && guards != [] {
      hide AuthUsers;
      var head := Rule([InboundTag(input.node)], [], p.criteria, "", OutboundTag(name));
      var guard := Rule([], guards, NO_CRITERIA, REJECT, "");
      assert RulesOf(input, p) == [head] + [guard];
      FirstMatchConcat([head], [guard], q);
    }
  }

  lemma {:induction false} PolicyRulesSkip(input: Input, ps: seq<Policy>, q: Request)
    requires Relayed(input, q)
    ensures FirstMatch(PolicyRules(input, ps), q).None?
  {
    if ps != [] {
      var front, p := ps[..|ps| - 1], ps[|ps| - 1];
      hide Relayed, RulesOf, FirstMatch;
      PolicyRulesSkip(input, front, q);
      RulesOfSkip(input, p, q);
      FirstMatchConcat(PolicyRules(input, front), RulesOf(input, p), q);
    }
  }

  lemma {:induction false} GenericRulesSkip(input: Input, targets: seq<string>, q: Request)
    requires Relayed(input, q)
    ensures FirstMatch(GenericRules(input, targets), q).None?
  {
    if targets != [] {
      var n := targets[|targets| - 1];
      GenericRulesSkip(input, targets[..|targets| - 1], q);
      FirstMatchConcat(GenericRules(input, targets[..|targets| - 1]), GenericRule(input, n), q);
      NoVirtualUser(input, n, q);
      hide Relayed, AuthUsers, GenericRules;
    }
  }

  /** No rule of a node touches what its peers relay through it: such traffic leaves by the final outbound, which is
      direct exactly when the node has a rule or no outbound but direct. */
  lemma RelayedIsUntouched(input: Input, q: Request)
    requires Relayed(input, q)
    ensures var cfg := ConfigOf(input);
            && Evaluate(cfg, q) == Via(cfg.final)
            && (cfg.final == "direct" <==> cfg.rules != [] || forall o :: o in cfg.outbounds ==> o.tag in {"direct", ""})
  {
    var ps := PolicyRules(input, SortedPolicies(input));
    var gs := if HasRole(input.node, Inbound) && Relays(input) then GenericRules(input, Targets(input, IsSelfExit(input.node))) else [];
    assert ConfigOf(input).rules == ps + gs;
    hide ConfigOf, PolicyRules, GenericRules, SortedPolicies, Targets, Relays;
    PolicyRulesSkip(input, SortedPolicies(input), q);
    GenericRulesSkip(input, Targets(input, IsSelfExit(input.node)), q);
    FirstMatchConcat(ps, gs, q);
    FinalTag(input);
    if k :| 0 <= k < |ConfigOf(input).outbounds| && ConfigOf(input).outbounds[k].tag !in {"direct", ""} {
      FirstProxyExists(ConfigOf(input).outbounds, k);
    }
  }

  lemma {:induction false} FirstProxyExists(os: seq<Exit>, k: nat)
    requires k < |os| && os[k].tag !in {"direct", ""}
    ensures exists j :: 0 <= j < |os| && FirstProxy(os, j)
  {
    if j: nat :| j < k && os[j].tag !in {"direct", ""} {
      FirstProxyExists(os, j);
    } else {
      assert FirstProxy(os, k);
    }
  }

  /** A node that is only an exit sends everything out directly. */
  lemma ExitNodeSendsDirect(c: Cluster, m: Node, q: Request)
    requires Inbound !in m.roles
    ensures Evaluate(ConfigOf(InputOf(c, m)), q) == Via("direct")
  {
    var input := InputOf(c, m);
    assert input.node == m;
    assert input.policies == [] by {
      assert input.policies != [] ==> input.policies[0] in input.policies;
      FilterMembers(Admission(m, SortedNodes(c), SortedExternals(c)), c.policies);
    }
    hide InputOf;
    PlainExit(input);
  }

  lemma PlainExit(input: Input)
    requires !HasRole(input.node, Inbound) && input.policies == []
    ensures ConfigOf(input).rules == [] && ConfigOf(input).final == DIRECT
  {
    hide RelayListener, ClientListeners, HasRole;
    assert Dedup([Direct(DIRECT)]) == [Direct(DIRECT)] by { assert [Direct(DIRECT)][..0] == []; }
    assert RouteFinal([Direct(DIRECT)]) == DIRECT by { assert [Direct(DIRECT)][1..] == []; }
    assert AllExits(input) == [Direct(DIRECT)];
    assert AllRules(input) == [];
    hide AllExits, AllRules, Dedup;
  }

  lemma {:induction false} NoUsersNoRules(input: Input, targets: seq<string>)
    requires input.users == []
    ensures GenericRules(input, targets) == []
  {
    if targets != [] { NoUsersNoRules(input, targets[..|targets| - 1]); }
  }

  /** Which is where an idle relay fails: in a cluster without users and policies, a node that has a peer forwards to
      an outbound what other nodes relay through it. */
  lemma IdleRelayForwards(c: Cluster, i: Node, m: Node, q: Request)
    requires WellFormed(c) && i in c.nodes && Inbound in i.roles && c.users == [] && c.policies == []
    requires NearNode(c, i, m) && m.relayPort > 0 && q.inbound == "relay-socks5"
    ensures Evaluate(ConfigOf(InputOf(c, i)), q) != Via("direct")
  {
    var input := InputOf(c, i);
    IdleInput(c, i);
    hide InputOf, WellFormed, NearNode, ConfigOf, Evaluate, PeerNames, Gated, OutboundTag, Tags;
    PeersAreNear(c, i, m.name);
    CollectedIsGated(c, i);
    IdleConfig(input, m.name);
    IdleRelayed(input, q);
    RelayedIsUntouched(input, q);
    TagShapes(m.name);
  }

  lemma IdleInput(c: Cluster, i: Node)
    requires c.users == [] && c.policies == []
    ensures InputOf(c, i).node == i && InputOf(c, i).users == [] && InputOf(c, i).policies == []
  {
    hide KnownNodes, KnownExternals, Discovered, DeniedSets, AllowedSets, SortedNodes, SortedExternals, Restrict;
  }

  lemma IdleRelayed(input: Input, q: Request)
    requires input.users == [] && q.inbound == "relay-socks5"
    ensures Relayed(input, q)
  {
    assert q.inbound[0] == 'r' && InboundTag(input.node)[0] == 'i';
  }

  lemma IdleConfig(input: Input, name: string)
    requires Gated(input) && HasRole(input.node, Inbound) && input.users == [] && input.policies == [] && name in PeerNames(input.outboundNodes)
    ensures ConfigOf(input).rules == [] && exists o :: o in ConfigOf(input).outbounds && o.tag == OutboundTag(name)
  {
    NoUsersNoRules(input, Targets(input, IsSelfExit(input.node)));
    EmittedTargets(input, name);
    DedupFacts(AllExits(input));
    assert PolicyRules(input, SortedPolicies(input)) == [];
    hide GenericRules, PolicyRules, SortedPolicies, Targets, AllExits, Dedup, Relays, ClientListeners, RouteFinal, Gated, PeerNames, OutboundTag;
  }

  // ---------------------------------------------------------------- counters, and nodes with nobody to relay for

  ghost predicate Counts(c: Cluster, i: Node, u: User, n: string, v: string) { u in c.users && Reaches(c, i, n) && v == u.name + "#" + n }

  /** An inbound node counts, in ascending order, the traffic of every user to every target it reaches. */
  lemma StatsAreExact(c: Cluster, i: Node, v: string)
    requires WellFormed(c) && i in c.nodes && Inbound in i.roles
    ensures Ascending(StatsUsers(InputOf(c, i)))
    ensures v in StatsUsers(InputOf(c, i)) <==> exists u, n :: Counts(c, i, u, n, v)
  {
    var input := InputOf(c, i);
    SortedSetAscending(VirtualUsers(input.users, StatsTargets(input)));
    assert input.node == i;
    hide InputOf, StatsTargets, Reaches, SortedSet, Ascending;
    forall n ensures n in StatsTargets(input) <==> Reaches(c, i, n) { StatsTargetIsReached(c, i, n); }
    forall u ensures u in input.users <==> u in c.users { UsersAreCollected(c, i, u); }
    if v in StatsUsers(input) {
      var u, n :| u in input.users && n in StatsTargets(input) && v == VirtualUser(u.name, n);
      assert Counts(c, i, u, n, v);
    }
    if u, n :| Counts(c, i, u, n, v) {
      assert VirtualUser(u.name, n) == v && n in StatsTargets(input) && u in input.users;
      assert v in VirtualUsers(input.users, StatsTargets(input));
    }
  }

  lemma StatsTargetIsReached(c: Cluster, i: Node, n: string)
    requires WellFormed(c) && i in c.nodes && Inbound in i.roles
    ensures n in StatsTargets(InputOf(c, i)) <==> Reaches(c, i, n)
  {
    assert InputOf(c, i).node == i;
    hide InputOf, StatsTargets, PeerNames, ExternalNames, UsableExternals, NearNode, NearExternal, Furnished;
    StatsTargetMembers(InputOf(c, i), n);
    PeersAreNear(c, i, n);
    UsableAreFurnished(c, i, n);
  }

  lemma {:induction false} PlainEntries(input: Input, users: seq<User>, x: Auth)
    ensures x in PlainUsers(input, users) <==>
            exists u :: u in users && x == ListenerAuth(EffectiveProtocol(input.node), UuidOf(input.userCreds, u.name), input.node.name, u.name)
  {
    if users != [] {
      assert users == users[..|users| - 1] + [users[|users| - 1]];
      hide ListenerAuth, UuidOf, EffectiveProtocol;
      PlainEntries(input, users[..|users| - 1], x);
    }
  }

  ghost predicate NobodyServed(input: Input) { forall u, n :: !Provisioned(input, u, n) }

  lemma NobodyMeansNoEntries(input: Input)
    requires HasRole(input.node, Inbound) && Relays(input)
    ensures NobodyServed(input) <==> ListenerUsers(input, Targets(input, IsSelfExit(input.node))) == []
  {
    var targets := Targets(input, IsSelfExit(input.node));
    hide Relays, Targets, ListenerUsers, MayUse, ListenerAuth;
    forall x ensures x in ListenerUsers(input, targets) <==> exists u, n :: n in targets && EntryFor(input, u, n, x) { Entries(input, targets, x); }
    if !NobodyServed(input) {
      var u, n :| Provisioned(input, u, n);
      var x := ListenerAuth(EffectiveProtocol(input.node), UuidOf(input.userCreds, u.name), n, VirtualUser(u.name, n));
      assert EntryFor(input, u, n, x) && x in ListenerUsers(input, targets);
    }
    if ListenerUsers(input, targets) != [] {
      var x := ListenerUsers(input, targets)[0];
      assert x in ListenerUsers(input, targets);
      var u, n :| n in targets && EntryFor(input, u, n, x);
      assert Provisioned(input, u, n);
    }
  }

  /** The fallback: a node without anything to relay to, or whose policies leave nobody to serve, lets every user in
      under the user's own name. */
  ghost predicate FallsBack(input: Input) {
    HasRole(input.node, Inbound) && (!Relays(input) || (input.policies != [] && NobodyServed(input)))
  }

  lemma FallbackListeners(input: Input)
    requires HasRole(input.node, Inbound)
    ensures FallsBack(input) ==> ClientListeners(input) == UserListeners(input)
    ensures !FallsBack(input) ==> ClientListeners(input) == RouteListeners(input, Targets(input, IsSelfExit(input.node)))
  {
    if Relays(input) { NobodyMeansNoEntries(input); }
    hide Relays, Targets, ListenerUsers, NobodyServed, PlainUsers, ProtocolPort;
  }

  lemma FallbackLetsAllIn(input: Input, l: Listener, x: Auth)
    requires l in ConfigOf(input).inbounds && l.tag == InboundTag(input.node) && FallsBack(input)
    ensures l.port == ProtocolPort(input.node.protocols, EffectiveProtocol(input.node))
    ensures x in l.users <==>
            exists u :: u in input.users && x == ListenerAuth(EffectiveProtocol(input.node), UuidOf(input.userCreds, u.name), input.node.name, u.name)
  {
    PlainEntries(input, input.users, x);
    FallbackListeners(input);
    ClientSideListener(input, l);
    hide ConfigOf, FallsBack, PlainUsers, ListenerAuth, UuidOf, ProtocolPort, Targets, ClientListeners;
  }

  /** When a node listens for clients at all: it has a port for its protocol and someone to let in. */
  lemma ListensIff(input: Input)
    requires HasRole(input.node, Inbound)
    ensures (exists l :: l in ConfigOf(input).inbounds && l.tag == InboundTag(input.node)) <==>
            && ProtocolPort(input.node.protocols, EffectiveProtocol(input.node)) != 0
            && (if FallsBack(input) then input.users != [] else !NobodyServed(input))
  {
    FallbackListeners(input);
    if Relays(input) { NobodyMeansNoEntries(input); }
    assert PlainUsers(input, input.users) == [] <==> input.users == [];
    hide ListenerUsers, NobodyServed, PlainUsers, ProtocolPort, Targets, ClientListeners, Relays;
    var ls := ClientListeners(input);
    assert forall l :: l in ls ==> l in ConfigOf(input).inbounds by { hide UserListeners, RouteListeners, AllExits, AllRules, Dedup; }
    forall l | l in ConfigOf(input).inbounds && l.tag == InboundTag(input.node) ensures l in ls { ClientSideListener(input, l); }
    hide ConfigOf;
    if ls != [] { assert ls[0] in ls; }
  }

  lemma ClientListenersAreInbound(input: Input, l: Listener)
    requires l in ClientListeners(input)
    ensures l.tag != "relay-socks5"
  {
    assert l.tag == InboundTag(input.node) by { hide Targets, PlainUsers, ProtocolPort; }
    assert l.tag[0] == 'i';
  }

  /** An outbound node, and only it, listens for its peers: on its relay port, or on 10808 when none is set. */
  lemma RelayPortOf(input: Input)
    ensures Outbound in input.node.roles <==> exists l :: l in ConfigOf(input).inbounds && l.tag == "relay-socks5"
    ensures forall l :: l in ConfigOf(input).inbounds && l.tag == "relay-socks5" ==>
              l.port == if input.node.relayPort > 0 then input.node.relayPort else 10808
  {
    forall l | l in ClientListeners(input) ensures l.tag != "relay-socks5" { ClientListenersAreInbound(input, l); }
    hide ClientListeners, AllRules, AllExits, Dedup, RouteFinal, RelayCred;
    if Outbound in input.node.roles { assert RelayListener(input) in ConfigOf(input).inbounds; }
  }
}
