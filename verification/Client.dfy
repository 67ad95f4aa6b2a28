/** The client-side builder: one user's outbounds, selectors and policy rules. */
module Client {

  import opened Ordering
  import opened Resources
  import opened Engine
  import opened Endpoints

  datatype ClientInput = ClientInput(
    user: User, uuid: string, policies: seq<Policy>, inboundNodes: seq<Node>,
    outboundsByName: map<string, Node>, externalsByName: map<string, External>,
    offline: set<string>, allowed: set<string>, denied: set<string>, policyOnly: set<string>)

  predicate Keyed(input: ClientInput) {
    && (forall k :: k in input.outboundsByName ==> input.outboundsByName[k].name == k)
    && (forall k :: k in input.externalsByName ==> input.externalsByName[k].name == k)
  }

  const AI := "ai"
  const GROUPS := {"hk", "jp", "us", "ai"}

  predicate TargetHasGroup(input: ClientInput, name: string, group: string) {
    if name in input.outboundsByName then group in input.outboundsByName[name].clientGroups
    else name in input.externalsByName && group in input.externalsByName[name].clientGroups
  }

  // ---------------------------------------------------------------- outbound targets of an inbound node

  datatype Ref = Ref(name: string, allowedInbounds: seq<string>, clientGroups: seq<string>)

  predicate Selectable(input: ClientInput, name: string) {
    (name !in input.policyOnly || TargetHasGroup(input, name, AI)) && IsNodeAllowed(name, input.allowed, input.denied)
  }

  predicate NodeReachable(input: ClientInput, inbound: Node, n: Node) {
    && n.relayPort != 0 && n.region == inbound.region && Selectable(input, n.name) && n.name !in input.offline
    && PairAllowed(inbound, n.name, n.allowedInbounds)
  }

  predicate SelfReachable(input: ClientInput, inbound: Node) {
    && HasRole(inbound, Outbound) && Selectable(input, inbound.name) && inbound.name !in input.offline
    && SelfExitAllowed(inbound)
  }

  predicate ExternalReachable(input: ClientInput, inbound: Node, e: External) {
    && e.region != "" && e.region == inbound.region && Selectable(input, e.name) && e.name !in input.outboundsByName
    && PairAllowed(inbound, e.name, e.allowedInbounds)
  }

  predicate ViaNode(input: ClientInput, inbound: Node, name: string) {
    name in input.outboundsByName && NodeReachable(input, inbound, input.outboundsByName[name])
  }

  predicate ViaSelf(input: ClientInput, inbound: Node, name: string) {
    name == inbound.name && SelfReachable(input, inbound) && !ViaNode(input, inbound, name)
  }

  predicate ViaExternal(input: ClientInput, inbound: Node, name: string) {
    && name in input.externalsByName && ExternalReachable(input, inbound, input.externalsByName[name])
    && !ViaNode(input, inbound, name) && !ViaSelf(input, inbound, name)
  }

  function NodeRef(n: Node): Ref { Ref(n.name, n.allowedInbounds, n.clientGroups) }

  function SelfRef(n: Node): Ref { Ref(n.name, [], n.clientGroups) }

  function ExternalRef(e: External): Ref { Ref(e.name, e.allowedInbounds, e.clientGroups) }

  /** What a name refers to from an inbound node: a SingBoxNode, the node itself, an external, or nothing. */
  function RefFor(input: ClientInput, inbound: Node, name: string): Option<Ref> {
    if ViaNode(input, inbound, name) then Some(NodeRef(input.outboundsByName[name]))
    else if ViaSelf(input, inbound, name) then Some(SelfRef(inbound))
    else if ViaExternal(input, inbound, name) then Some(ExternalRef(input.externalsByName[name]))
    else None
  }

  function ReachableNames(input: ClientInput, inbound: Node): set<string> {
    set x | x in input.outboundsByName.Keys + {inbound.name} + input.externalsByName.Keys && RefFor(input, inbound, x).Some?
  }

  /** The reachable targets, by ascending name. */
  ghost function Refs(input: ClientInput, inbound: Node): seq<Ref> {
    var names := SortedSet(ReachableNames(input, inbound));
    seq(|names|, i requires 0 <= i < |names| => assert names[i] in names; RefFor(input, inbound, names[i]).value)
  }

  predicate RefLe(a: Ref, b: Ref) { StrLe(a.name, b.name) }

  function FindInbound(nodes: seq<Node>, name: string): (r: Option<Node>)
    ensures r.Some? ==> r.value in nodes && r.value.name == name
    ensures r.None? ==> forall n :: n in nodes ==> n.name != name
  {
    if nodes == [] then None else if nodes[0].name == name then Some(nodes[0]) else FindInbound(nodes[1..], name)
  }

  ghost predicate AreRefs(input: ClientInput, inbound: Node, refs: seq<Ref>, seen: set<string>) {
    && Keyed(input) && NoDup(refs)
    && (forall r :: r in refs ==> RefFor(input, inbound, r.name) == Some(r))
    && (forall x :: x in seen <==> exists r :: r in refs && r.name == x)
  }

  lemma AreRefsSnoc(input: ClientInput, inbound: Node, refs: seq<Ref>, seen: set<string>, r: Ref)
    requires AreRefs(input, inbound, refs, seen) && r.name !in seen && RefFor(input, inbound, r.name) == Some(r)
    ensures AreRefs(input, inbound, refs + [r], seen + {r.name})
  {
    assert r !in refs;
  }

  method AddNodeRefs(input: ClientInput, inbound: Node) returns (refs: seq<Ref>, seen: set<string>)
    requires Keyed(input)
    ensures AreRefs(input, inbound, refs, seen)
    ensures forall x :: x in seen <==> ViaNode(input, inbound, x)
  {
    refs, seen := [], {};
    var keys := IterationOrder(input.outboundsByName.Keys);
    for i := 0 to |keys|
      invariant AreRefs(input, inbound, refs, seen)
      invariant forall x :: x in seen <==> x in keys[..i] && ViaNode(input, inbound, x)
    {
      var n := input.outboundsByName[keys[i]];
      assert keys[..i + 1] == keys[..i] + [keys[i]] && keys[i] !in keys[..i];
      if n.relayPort != 0 && n.name !in seen && NodeReachable(input, inbound, n) {
        AreRefsSnoc(input, inbound, refs, seen, NodeRef(n));
        seen := seen + {n.name};
        refs := refs + [NodeRef(n)];
      }
    }
    assert keys[..|keys|] == keys;
  }

  method AddExternalRefs(input: ClientInput, inbound: Node, refs0: seq<Ref>, seen0: set<string>)
    returns (refs: seq<Ref>, seen: set<string>)
    requires AreRefs(input, inbound, refs0, seen0)
    requires forall x :: x in seen0 <==> ViaNode(input, inbound, x) || ViaSelf(input, inbound, x)
    ensures AreRefs(input, inbound, refs, seen)
    ensures forall x :: x in seen <==> RefFor(input, inbound, x).Some?
  {
    refs, seen := refs0, seen0;
    var keys := IterationOrder(input.externalsByName.Keys);
    for i := 0 to |keys|
      invariant AreRefs(input, inbound, refs, seen)
      invariant forall x :: x in seen <==> x in seen0 || (x in keys[..i] && ViaExternal(input, inbound, x))
    {
      var e := input.externalsByName[keys[i]];
      assert keys[..i + 1] == keys[..i] + [keys[i]] && keys[i] !in keys[..i];
      if e.name !in seen && ExternalReachable(input, inbound, e) {
        AreRefsSnoc(input, inbound, refs, seen, ExternalRef(e));
        seen := seen + {e.name};
        refs := refs + [ExternalRef(e)];
      }
    }
    assert keys[..|keys|] == keys;
  }

  lemma RefLeIsOrder()
    ensures IsOrder(RefLe)
  {
    forall a, b ensures RefLe(a, b) || RefLe(b, a) { StrLeTotal(a.name, b.name); }
    forall a, b, c | RefLe(a, b) && RefLe(b, c) ensures RefLe(a, c) { StrLeTransitive(a.name, b.name, c.name); }
  }

  function RefNames(refs: seq<Ref>): (r: seq<string>)
    ensures |r| == |refs| && forall i :: 0 <= i < |refs| ==> r[i] == refs[i].name
  {
    seq(|refs|, i requires 0 <= i < |refs| => refs[i].name)
  }

  lemma SortedNames(input: ClientInput, inbound: Node, refs: seq<Ref>, seen: set<string>)
    requires AreRefs(input, inbound, refs, seen)
    ensures Ascending(RefNames(SortBy(refs, RefLe)))
    ensures forall r :: r in SortBy(refs, RefLe) <==> r in refs
  {
    hide SortBy, RefFor, StrLe;
    var s := SortBy(refs, RefLe);
    RefLeIsOrder();
    SortBySorts(refs, RefLe);
    SortMembers(refs, RefLe);
    PermutedNoDup(refs, s);
    hide IsOrder;
    var names := RefNames(s);
    forall i, j | 0 <= i < j < |names| ensures StrLe(names[i], names[j]) && names[i] != names[j] {
      assert RefLe(s[i], s[j]) && s[i] in refs && s[j] in refs;
    }
  }

  lemma ReachableByName(input: ClientInput, inbound: Node, name: string)
    requires Keyed(input)
    ensures name in ReachableNames(input, inbound) <==> RefFor(input, inbound, name).Some?
  {}

  /** Sorting the collected references gives the reference list, in whatever order they were collected. */
  lemma SortedRefs(input: ClientInput, inbound: Node, refs: seq<Ref>, seen: set<string>)
    requires AreRefs(input, inbound, refs, seen)
    requires forall x :: x in seen <==> RefFor(input, inbound, x).Some?
    ensures SortBy(refs, RefLe) == Refs(input, inbound)
  {
    hide SortBy, RefFor, SortedSet, StrLe, Ascending, ReachableNames;
    var s := SortBy(refs, RefLe);
    var names := RefNames(s);
    SortedNames(input, inbound, refs, seen);
    AscendingIsSortedSet(names);
    forall x ensures x in names <==> x in ReachableNames(input, inbound) {
      ReachableByName(input, inbound, x);
      if x in names {
        var i :| 0 <= i < |names| && names[i] == x;
        assert s[i] in refs;
      }
      if x in ReachableNames(input, inbound) {
        var r :| r in refs && r.name == x;
        var i :| 0 <= i < |s| && s[i] == r;
        assert names[i] == x;
      }
    }
    assert (set x | x in names) == ReachableNames(input, inbound);
    forall i | 0 <= i < |s| ensures s[i] == Refs(input, inbound)[i] {
      assert s[i] in refs;
    }
  }

  ghost function RefsByName(input: ClientInput, name: string): seq<Ref> {
    match FindInbound(input.inboundNodes, name)
    case Some(n) => Refs(input, n)
    case None => []
  }

  /** Whatever the iteration order of the two maps, the same list, strictly ascending by name. */
  method ResolveOutboundNodes(input: ClientInput, inboundName: string) returns (refs: seq<Ref>)
    requires Keyed(input)
    ensures refs == RefsByName(input, inboundName)
  {
    var inbound := FindInbound(input.inboundNodes, inboundName);
    if inbound.None? {
      return [];
    }
    var node := inbound.value;
    var seen;
    refs, seen := AddNodeRefs(input, node);
    if SelfReachable(input, node) && node.name !in seen {
      AreRefsSnoc(input, node, refs, seen, SelfRef(node));
      seen := seen + {node.name};
      refs := refs + [SelfRef(node)];
    }
    refs, seen := AddExternalRefs(input, node, refs, seen);
    SortedRefs(input, node, refs, seen);
    refs := SortBy(refs, RefLe);
  }

  // ---------------------------------------------------------------- client policies

  datatype ClientRule = ClientRule(criteria: Criteria, action: string, outbound: string)

  datatype PolicyError =
    | InvalidIngress(policy: string) | InvalidEgress(policy: string) | InvalidMatch(policy: string)
    | InvalidFallback(policy: string) | InvalidAction(policy: string) | NotUnique(policy: string, count: nat)

  datatype Result<+T, +E> = Ok(value: T) | Err(error: E)

  datatype Plan = Plan(rules: seq<ClientRule>, targets: set<string>)

  function Defect(p: Policy): Option<PolicyError> {
    if !p.ingress.valid then Some(InvalidIngress(p.name))
    else if !p.egress.valid then Some(InvalidEgress(p.name))
    else if !CriteriaValid(p) then Some(InvalidMatch(p.name))
    else if p.fallbackAction != "" && p.fallbackAction != REJECT then Some(InvalidFallback(p.name))
    else if p.action != ROUTE && p.action != REJECT then Some(InvalidAction(p.name))
    else None
  }

  ghost function ClientNodeMatches(input: ClientInput, p: Policy): set<string> {
    set k | k in input.outboundsByName && Matches(p.egress, k, input.outboundsByName[k].labels)
  }

  ghost function ClientExternalMatches(input: ClientInput, p: Policy): set<string> {
    set k | k in input.externalsByName && Matches(p.egress, k, input.externalsByName[k].labels)
  }

  ghost function MatchCount(input: ClientInput, p: Policy): nat {
    |ClientNodeMatches(input, p)| + |ClientExternalMatches(input, p)|
  }

  /** The matched target, when there is just one. */
  ghost function ClientTarget(input: ClientInput, p: Policy): string {
    var all := ClientNodeMatches(input, p) + ClientExternalMatches(input, p);
    if all == {} then "" else Pick(all)
  }

  method ResolveClientPolicyEgress(input: ClientInput, p: Policy) returns (name: string, count: nat)
    requires Keyed(input)
    ensures count == MatchCount(input, p)
    ensures count == 1 ==> name == ClientTarget(input, p)
  {
    var ns := ClientMatchingNodes(input, p);
    var es := ClientMatchingExternals(input, p);
    NoDupCardinality(ns, ClientNodeMatches(input, p));
    NoDupCardinality(es, ClientExternalMatches(input, p));
    name, count := "", |ns| + |es|;
    if |ns| > 0 {
      name := ns[|ns| - 1];
    }
    if |es| > 0 {
      name := es[|es| - 1];
    }
    if count == 1 {
      assert name in ns || name in es;
      SingletonUnion(ClientNodeMatches(input, p), ClientExternalMatches(input, p), name);
    }
  }

  method ClientMatchingNodes(input: ClientInput, p: Policy) returns (names: seq<string>)
    requires Keyed(input)
    ensures NoDup(names) && forall x :: x in names <==> x in ClientNodeMatches(input, p)
  {
    names := [];
    var keys := IterationOrder(input.outboundsByName.Keys);
    for i := 0 to |keys|
      invariant NoDup(names)
      invariant forall x :: x in names <==> x in ClientNodeMatches(input, p) && x in keys[..i]
    {
      var n := input.outboundsByName[keys[i]];
      assert keys[..i + 1] == keys[..i] + [keys[i]] && keys[i] !in keys[..i];
      if Matches(p.egress, n.name, n.labels) {
        names := names + [n.name];
      }
    }
    assert keys[..|keys|] == keys;
  }

  method ClientMatchingExternals(input: ClientInput, p: Policy) returns (names: seq<string>)
    requires Keyed(input)
    ensures NoDup(names) && forall x :: x in names <==> x in ClientExternalMatches(input, p)
  {
    names := [];
    var keys := IterationOrder(input.externalsByName.Keys);
    for i := 0 to |keys|
      invariant NoDup(names)
      invariant forall x :: x in names <==> x in ClientExternalMatches(input, p) && x in keys[..i]
    {
      var e := input.externalsByName[keys[i]];
      assert keys[..i + 1] == keys[..i] + [keys[i]] && keys[i] !in keys[..i];
      if Matches(p.egress, e.name, e.labels) {
        names := names + [e.name];
      }
    }
    assert keys[..|keys|] == keys;
  }

  function RouteClientRule(input: ClientInput, p: Policy, target: string): ClientRule {
    if TargetHasGroup(input, target, AI) then ClientRule(p.criteria, "", AI) else ClientRule(p.criteria, REJECT, "")
  }

  /** The effect of one policy on the plan so far. */
  ghost function ExtendPlan(input: ClientInput, plan: Plan, p: Policy): Result<Plan, PolicyError> {
    if Defect(p).Some? then Err(Defect(p).value)
    else if p.action == REJECT then Ok(Plan(plan.rules + [ClientRule(p.criteria, REJECT, "")], plan.targets))
    else if MatchCount(input, p) == 0 then Ok(plan)
    else if MatchCount(input, p) != 1 then Err(NotUnique(p.name, MatchCount(input, p)))
    else
      var t := ClientTarget(input, p);
      Ok(Plan(plan.rules + [RouteClientRule(input, p, t)], plan.targets + {t}))
  }

  ghost function PlanOf(input: ClientInput, ps: seq<Policy>): Result<Plan, PolicyError> {
    if ps == [] then Ok(Plan([], {})) else
      match PlanOf(input, ps[..|ps| - 1])
      case Err(e) => Err(e)
      case Ok(plan) => ExtendPlan(input, plan, ps[|ps| - 1])
  }

  ghost function ClientPlan(input: ClientInput): Result<Plan, PolicyError> {
    PlanOf(input, SortBy(input.policies, PolicyLe))
  }

  lemma {:induction false} PlanErrorStays(input: ClientInput, ps: seq<Policy>, i: nat)
    requires i <= |ps| && PlanOf(input, ps[..i]).Err?
    ensures PlanOf(input, ps) == PlanOf(input, ps[..i])
    decreases |ps|
  {
    if i < |ps| {
      assert ps[..|ps| - 1][..i] == ps[..i];
      PlanErrorStays(input, ps[..|ps| - 1], i);
    } else {
      assert ps[..i] == ps;
    }
  }

  method BuildClientPolicies(input: ClientInput) returns (r: Result<Plan, PolicyError>)
    requires Keyed(input)
    ensures r == ClientPlan(input)
  {
    var ps := SortBy(input.policies, PolicyLe);
    var rules: seq<ClientRule>, targets: set<string> := [], {};
    for i := 0 to |ps|
      invariant PlanOf(input, ps[..i]) == Ok(Plan(rules, targets))
    {
      var p := ps[i];
      assert ps[..i + 1][..i] == ps[..i];
      assert PlanOf(input, ps[..i + 1]) == ExtendPlan(input, Plan(rules, targets), p);
      if Defect(p).Some? {
        PlanErrorStays(input, ps, i + 1);
        return Err(Defect(p).value);
      }
      if p.action == REJECT {
        rules := rules + [ClientRule(p.criteria, REJECT, "")];
      } else {
        var name, count := ResolveClientPolicyEgress(input, p);
        if count > 1 {
          PlanErrorStays(input, ps, i + 1);
          return Err(NotUnique(p.name, count));
        }
        if count == 1 {
          targets := targets + {name};
          rules := rules + [RouteClientRule(input, p, name)];
        }
      }
    }
    assert ps[..|ps|] == ps;
    return Ok(Plan(rules, targets));
  }

  // ---------------------------------------------------------------- advertised paths

  datatype Path = Path(inbound: Node, ref: Ref, entry: Entry)

  /** `tls`: None without TLS, Some("") for an unverified connection, Some(name) for a server name. */
  datatype ClientOutbound =
    | Proxy(tag: string, kind: string, server: string, port: int, auth: Auth, tls: Option<string>)
    | GroupSelector(tag: string, members: seq<string>)
    | ClientDirect(tag: string)

  function PathTag(inbound: string, target: string): string {
    if target == inbound then target else target + "#" + inbound
  }

  function TagOf(p: Path): string { PathTag(p.inbound.name, p.ref.name) }

  function ClientAuth(protocol: string, uuid: string, user: string, target: string): Auth {
    var auth := DeriveAuth(protocol, uuid, target);
    if protocol == "naive" then auth["username" := Plain(VirtualUser(user, target))] else auth
  }

  function ProxyOf(input: ClientInput, p: Path): ClientOutbound {
    var protocol := EffectiveProtocol(p.inbound);
    Proxy(TagOf(p), if protocol == "socks5" then "socks" else protocol, p.entry.address, p.entry.port,
          ClientAuth(protocol, input.uuid, input.user.name, p.ref.name),
          if UsesTls(protocol) then Some(p.inbound.status.tlsServerName) else None)
  }

  function EntryOf(input: ClientInput, node: Node): Option<Entry> {
    var protocol := EffectiveProtocol(node);
    if node.name in input.offline || !Supports(node.protocols, protocol) then None
    else FindEntryEndpoint(node.status.entryEndpoints, protocol)
  }

  predicate Kept(input: ClientInput, ref: Ref, g: string) {
    g in ref.clientGroups && g in GROUPS && (g == AI || ref.name !in input.policyOnly)
  }

  predicate Shown(input: ClientInput, ref: Ref) { exists g :: g in ref.clientGroups && Kept(input, ref, g) }

  ghost function PathsFrom(input: ClientInput, node: Node): seq<Path> {
    match EntryOf(input, node)
    case None => []
    case Some(entry) =>
      var refs := RefsByName(input, node.name);
      seq(|refs|, i requires 0 <= i < |refs| => Path(node, refs[i], entry))
  }

  function ShownPaths(input: ClientInput, ps: seq<Path>): seq<Path> {
    if ps == [] then [] else
      ShownPaths(input, ps[..|ps| - 1]) + (if Shown(input, ps[|ps| - 1].ref) then [ps[|ps| - 1]] else [])
  }

  /** The paths advertised through a list of inbound nodes. */
  ghost function Paths(input: ClientInput, nodes: seq<Node>): seq<Path> {
    if nodes == [] then [] else
      Paths(input, nodes[..|nodes| - 1]) + ShownPaths(input, PathsFrom(input, nodes[|nodes| - 1]))
  }

  function Members(input: ClientInput, ps: seq<Path>, g: string): set<string> {
    set p | p in ps && Kept(input, p.ref, g) :: TagOf(p)
  }

  function Proxies(input: ClientInput, ps: seq<Path>): (r: seq<ClientOutbound>)
    ensures |r| == |ps| && forall i :: 0 <= i < |ps| ==> r[i] == ProxyOf(input, ps[i])
  {
    seq(|ps|, i requires 0 <= i < |ps| => ProxyOf(input, ps[i]))
  }

  ghost function SelectorTags(input: ClientInput, ps: seq<Path>): seq<string> {
    SortedSet(set g | g in GROUPS && Members(input, ps, g) != {})
  }

  ghost function Selectors(input: ClientInput, ps: seq<Path>): seq<ClientOutbound> {
    var gs := SelectorTags(input, ps);
    seq(|gs|, i requires 0 <= i < |gs| => GroupSelector(gs[i], SortedSet(Members(input, ps, gs[i]))))
  }

  ghost function OutboundsOf(input: ClientInput): seq<ClientOutbound> {
    var ps := Paths(input, input.inboundNodes);
    Proxies(input, ps) + Selectors(input, ps) + [ClientDirect(DIRECT)]
  }

  /** Policy targets outside the ai group are withdrawn from the ordinary pool. */
  function Isolated(input: ClientInput, targets: set<string>): ClientInput {
    input.(policyOnly := input.policyOnly + set t | t in targets && !TargetHasGroup(input, t, AI))
  }

  ghost function ClientConfigOf(input: ClientInput): Result<seq<ClientOutbound>, PolicyError> {
    match ClientPlan(input)
    case Err(e) => Err(e)
    case Ok(plan) => Ok(OutboundsOf(Isolated(input, plan.targets)))
  }

  // ---------------------------------------------------------------- building it step by step

  type GroupTags = map<string, seq<string>>

  function TagsIn(go: GroupTags, g: string): set<string> { if g in go then set t | t in go[g] else {} }

  ghost predicate GroupsValid(go: GroupTags) { go.Keys <= GROUPS && forall g :: g in go ==> go[g] != [] }

  ghost predicate Tracks(input: ClientInput, go: GroupTags, ps: seq<Path>) {
    GroupsValid(go) && forall g :: TagsIn(go, g) == Members(input, ps, g)
  }

  function PutTag(go: GroupTags, g: string, tag: string): GroupTags {
    go[g := (if g in go then go[g] else []) + [tag]]
  }

  lemma PutTagEffect(go: GroupTags, g: string, tag: string)
    requires GroupsValid(go) && g in GROUPS
    ensures GroupsValid(PutTag(go, g, tag))
    ensures forall h :: TagsIn(PutTag(go, g, tag), h) == TagsIn(go, h) + if h == g then {tag} else {}
  {}

  ghost predicate KeptBefore(input: ClientInput, ref: Ref, i: nat, g: string)
    requires i <= |ref.clientGroups|
  {
    g in ref.clientGroups[..i] && Kept(input, ref, g)
  }

  lemma KeptStep(input: ClientInput, ref: Ref, i: nat, g: string)
    requires i < |ref.clientGroups|
    ensures KeptBefore(input, ref, i + 1, g) <==> KeptBefore(input, ref, i, g) || (g == ref.clientGroups[i] && Kept(input, ref, g))
  {
    assert ref.clientGroups[..i + 1] == ref.clientGroups[..i] + [ref.clientGroups[i]];
  }

  lemma KeptGroup(input: ClientInput, ref: Ref, i: nat)
    requires i < |ref.clientGroups|
    ensures var g := ref.clientGroups[i]; Kept(input, ref, g) <==> g in GROUPS && (g == AI || ref.name !in input.policyOnly)
  {}

  lemma KeptAll(input: ClientInput, ref: Ref, g: string)
    ensures KeptBefore(input, ref, |ref.clientGroups|, g) <==> Kept(input, ref, g)
    ensures Kept(input, ref, g) ==> g in ref.clientGroups
  {
    assert ref.clientGroups[..|ref.clientGroups|] == ref.clientGroups;
  }

  method AddToGroups(input: ClientInput, go0: GroupTags, ref: Ref, tag: string) returns (go: GroupTags, added: bool)
    requires GroupsValid(go0)
    ensures GroupsValid(go)
    ensures forall g :: TagsIn(go, g) == TagsIn(go0, g) + if Kept(input, ref, g) then {tag} else {}
    ensures added == Shown(input, ref)
  {
    hide Kept, TagsIn, GroupsValid, PutTag;
    go, added := go0, false;
    for i := 0 to |ref.clientGroups|
      invariant GroupsValid(go)
      invariant forall g :: TagsIn(go, g) == TagsIn(go0, g) + if KeptBefore(input, ref, i, g) then {tag} else {}
      invariant added == exists g :: KeptBefore(input, ref, i, g)
    {
      var group := ref.clientGroups[i];
      forall g ensures KeptBefore(input, ref, i + 1, g) <==> KeptBefore(input, ref, i, g) || (g == group && Kept(input, ref, g)) {
        KeptStep(input, ref, i, g);
      }
      KeptGroup(input, ref, i);
      if group in GROUPS && (group == AI || ref.name !in input.policyOnly) {
        PutTagEffect(go, group, tag);
        go := PutTag(go, group, tag);
        added := true;
        assert KeptBefore(input, ref, i + 1, group);
      }
    }
    forall g ensures KeptBefore(input, ref, |ref.clientGroups|, g) <==> Kept(input, ref, g) { KeptAll(input, ref, g); }
  }

  lemma MembersConcat(input: ClientInput, a: seq<Path>, b: seq<Path>, g: string)
    ensures Members(input, a + b, g) == Members(input, a, g) + Members(input, b, g)
  {}

  lemma MembersOne(input: ClientInput, ps: seq<Path>, p: Path, g: string)
    ensures Members(input, ps + (if Shown(input, p.ref) then [p] else []), g)
            == Members(input, ps, g) + if Kept(input, p.ref, g) then {TagOf(p)} else {}
  {
    MembersConcat(input, ps, [p], g);
    assert p in [p];
    assert Kept(input, p.ref, g) ==> Shown(input, p.ref);
    assert Members(input, [p], g) == if Kept(input, p.ref, g) then {TagOf(p)} else {};
    assert ps + [] == ps;
  }

  lemma ProxiesConcat(input: ClientInput, a: seq<Path>, b: seq<Path>)
    ensures Proxies(input, a + b) == Proxies(input, a) + Proxies(input, b)
  {}

  lemma TracksStep(input: ClientInput, go: GroupTags, go': GroupTags, ps: seq<Path>, p: Path)
    requires Tracks(input, go, ps) && GroupsValid(go')
    requires forall g :: TagsIn(go', g) == TagsIn(go, g) + if Kept(input, p.ref, g) then {TagOf(p)} else {}
    ensures Tracks(input, go', ps + if Shown(input, p.ref) then [p] else [])
  {
    forall g ensures TagsIn(go', g) == Members(input, ps + if Shown(input, p.ref) then [p] else [], g) {
      MembersOne(input, ps, p, g);
    }
  }

  lemma ShownStep(input: ClientInput, ps: seq<Path>, all: seq<Path>, i: nat)
    requires i < |all|
    ensures ps + ShownPaths(input, all[..i + 1])
            == ps + ShownPaths(input, all[..i]) + if Shown(input, all[i].ref) then [all[i]] else []
  {
    assert all[..i + 1][..i] == all[..i];
  }

  /** Advertises every shown path of one inbound node with a usable entry. */
  method AddRefs(input: ClientInput, node: Node, entry: Entry, refs: seq<Ref>,
                 ghost ps: seq<Path>, proxies0: seq<ClientOutbound>, go0: GroupTags)
    returns (proxies: seq<ClientOutbound>, go: GroupTags)
    requires proxies0 == Proxies(input, ps) && Tracks(input, go0, ps)
    ensures var all := seq(|refs|, i requires 0 <= i < |refs| => Path(node, refs[i], entry));
            && proxies == Proxies(input, ps + ShownPaths(input, all))
            && Tracks(input, go, ps + ShownPaths(input, all))
  {
    proxies, go := proxies0, go0;
    ghost var all := seq(|refs|, i requires 0 <= i < |refs| => Path(node, refs[i], entry));
    assert ps + ShownPaths(input, all[..0]) == ps;
    for i := 0 to |refs|
      invariant proxies == Proxies(input, ps + ShownPaths(input, all[..i]))
      invariant Tracks(input, go, ps + ShownPaths(input, all[..i]))
    {
      var p := Path(node, refs[i], entry);
      ghost var sofar, before := ps + ShownPaths(input, all[..i]), go;
      ShownStep(input, ps, all, i);
      var added;
      go, added := AddToGroups(input, go, refs[i], TagOf(p));
      TracksStep(input, before, go, sofar, p);
      if added {
        ProxiesConcat(input, sofar, [p]);
        proxies := proxies + [ProxyOf(input, p)];
      } else {
        assert sofar + [] == sofar;
      }
    }
    assert all[..|refs|] == all;
  }

  method AddInbound(input: ClientInput, node: Node, ghost ps: seq<Path>, proxies0: seq<ClientOutbound>, go0: GroupTags)
    returns (proxies: seq<ClientOutbound>, go: GroupTags)
    requires Keyed(input) && proxies0 == Proxies(input, ps) && Tracks(input, go0, ps)
    ensures proxies == Proxies(input, ps + ShownPaths(input, PathsFrom(input, node)))
    ensures Tracks(input, go, ps + ShownPaths(input, PathsFrom(input, node)))
  {
    proxies, go := proxies0, go0;
    assert ps + [] == ps;
    if node.name in input.offline || !Supports(node.protocols, EffectiveProtocol(node)) {
      return;
    }
    var entry := FindEntryEndpoint(node.status.entryEndpoints, EffectiveProtocol(node));
    if entry.None? {
      return;
    }
    var refs := ResolveOutboundNodes(input, node.name);
    proxies, go := AddRefs(input, node, entry.value, refs, ps, proxies, go);
    ghost var all := seq(|refs|, i requires 0 <= i < |refs| => Path(node, refs[i], entry.value));
    assert all == PathsFrom(input, node);
  }

  lemma GroupKeys(input: ClientInput, go: GroupTags, ps: seq<Path>)
    requires Tracks(input, go, ps)
    ensures go.Keys == set g | g in GROUPS && Members(input, ps, g) != {}
  {
    forall g ensures g in go.Keys <==> g in GROUPS && Members(input, ps, g) != {} {
      assert TagsIn(go, g) == Members(input, ps, g);
      if g in go { assert go[g][0] in TagsIn(go, g); }
    }
  }

  method SortedGroups(go: GroupTags) returns (groups: seq<string>)
    ensures groups == SortedSet(go.Keys)
  {
    var keys := IterationOrder(go.Keys);
    SortIsSortedSet(keys);
    assert (set x | x in keys) == go.Keys;
    groups := SortBy(keys, StrLe);
  }

  method BuildSelectors(input: ClientInput, go: GroupTags, ghost ps: seq<Path>) returns (r: seq<ClientOutbound>)
    requires Tracks(input, go, ps)
    ensures r == Selectors(input, ps)
  {
    hide SortedSet, Members, SortBy, Compact, StrLe;
    var groups := SortedGroups(go);
    GroupKeys(input, go, ps);
    r := [];
    for i := 0 to |groups|
      invariant |r| == i && forall j :: 0 <= j < i ==> r[j] == GroupSelector(groups[j], SortedSet(Members(input, ps, groups[j])))
    {
      var g := groups[i];
      assert g in groups;
      SortCompactIsSortedSet(go[g]);
      assert TagsIn(go, g) == Members(input, ps, g);
      var tags := SortBy(go[g], StrLe);
      tags := Compact(tags);
      r := r + [GroupSelector(g, tags)];
    }
  }

  /** Walks the inbound nodes, collecting proxies and group members. */
  method AddInbounds(input: ClientInput) returns (proxies: seq<ClientOutbound>, go: GroupTags)
    requires Keyed(input)
    ensures var ps := Paths(input, input.inboundNodes); proxies == Proxies(input, ps) && Tracks(input, go, ps)
  {
    proxies, go := [], map[];
    var nodes := input.inboundNodes;
    for i := 0 to |nodes|
      invariant proxies == Proxies(input, Paths(input, nodes[..i]))
      invariant Tracks(input, go, Paths(input, nodes[..i]))
    {
      hide PathsFrom, ShownPaths, Tracks, Keyed;
      assert nodes[..i + 1][..i] == nodes[..i];
      proxies, go := AddInbound(input, nodes[i], Paths(input, nodes[..i]), proxies, go);
    }
    assert nodes[..|nodes|] == nodes;
  }

  method BuildClientConfig(input: ClientInput) returns (r: Result<seq<ClientOutbound>, PolicyError>)
    requires Keyed(input)
    ensures r == ClientConfigOf(input)
  {
    hide ClientPlan, Paths, Selectors, Tracks;
    var plan := BuildClientPolicies(input);
    if plan.Err? {
      return Err(plan.error);
    }
    var isolated := Isolated(input, plan.value.targets);
    var proxies, go := AddInbounds(isolated);
    var selectors := BuildSelectors(isolated, go, Paths(isolated, isolated.inboundNodes));
    return Ok(proxies + selectors + [ClientDirect(DIRECT)]);
  }
}
