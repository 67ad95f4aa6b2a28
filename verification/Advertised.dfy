/** What a client config advertises: policy isolation, selector closure, unique tags, inactive policies. */
module Advertised {

  import opened Ordering
  import opened Resources
  import opened Engine
  import opened Routing
  import opened Endpoints
  import opened Controller
  import opened Collected
  import opened Client

  // ---------------------------------------------------------------- the input a request is answered from

  function IsInbound(): Node -> bool { n => HasRole(n, Inbound) }

  function IsOutbound(): Node -> bool { n => HasRole(n, Outbound) }

  /** The targets of route policies whose selector matches exactly one. */
  ghost function PolicyOnly(ps: seq<Policy>, nodes: seq<Node>, externals: seq<External>): set<string> {
    set p | p in ps && p.action == ROUTE && |Candidates(p, nodes, externals)| == 1 :: Candidates(p, nodes, externals)[0]
  }

  method PolicyOnlyEgresses(ps: seq<Policy>, nodes: seq<Node>, externals: seq<External>) returns (names: set<string>)
    ensures names == PolicyOnly(ps, nodes, externals)
  {
    names := {};
    for i := 0 to |ps|
      invariant names == PolicyOnly(ps[..i], nodes, externals)
    {
      var p := ps[i];
      assert ps[..i + 1] == ps[..i] + [p];
      if p.action == ROUTE {
        var matches := AllMatches(p, nodes, externals);
        if |matches| == 1 {
          names := names + {matches[0]};
        }
      }
    }
    assert ps[..|ps|] == ps;
  }

  method AllMatches(p: Policy, nodes: seq<Node>, externals: seq<External>) returns (matches: seq<string>)
    ensures matches == Candidates(p, nodes, externals)
  {
    matches := [];
    for j := 0 to |nodes|
      invariant matches == NodeNames(Filter(SelectedNode(p), nodes[..j]))
    {
      FilterSnoc(SelectedNode(p), nodes, j);
      if HasRole(nodes[j], Outbound) && Matches(p.egress, nodes[j].name, nodes[j].labels) {
        matches := matches + [nodes[j].name];
      }
    }
    assert nodes[..|nodes|] == nodes;
    ghost var before := matches;
    for j := 0 to |externals|
      invariant matches == before + ExternalNames(Filter(SelectedExternal(p), externals[..j]))
    {
      FilterSnoc(SelectedExternal(p), externals, j);
      if Matches(p.egress, externals[j].name, externals[j].labels) {
        matches := matches + [externals[j].name];
      }
    }
    assert externals[..|externals|] == externals;
  }

  ghost function HandlerInput(c: Cluster, user: User, uuid: string): ClientInput {
    var group := GroupOf(c, user);
    ClientInput(
      user, uuid, c.policies, Filter(IsInbound(), c.nodes),
      IndexNodes(Filter(IsOutbound(), c.nodes)), IndexExternals(c.externals),
      set n | n in c.nodes && n.status.ready == Some(false) :: n.name,
      if group.Some? then ToSet(group.value.allowedNodes) else {},
      if group.Some? then ToSet(group.value.deniedNodes) else {},
      PolicyOnly(c.policies, c.nodes, c.externals))
  }

  lemma HandlerFacts(c: Cluster, user: User, uuid: string)
    requires WellFormed(c)
    ensures var input := HandlerInput(c, user, uuid);
            && Keyed(input)
            && (forall n :: n in input.inboundNodes <==> n in c.nodes && HasRole(n, Inbound))
            && (forall k :: k in input.outboundsByName ==> input.outboundsByName[k] in c.nodes && HasRole(input.outboundsByName[k], Outbound))
            && (forall n :: n in c.nodes && HasRole(n, Outbound) ==> n.name in input.outboundsByName && input.outboundsByName[n.name] == n)
            && (forall k :: k in input.externalsByName ==> input.externalsByName[k] in c.externals)
            && (forall e :: e in c.externals ==> e.name in input.externalsByName && input.externalsByName[e.name] == e)
  {
    FilterMembers(IsInbound(), c.nodes);
    FilterMembers(IsOutbound(), c.nodes);
    IndexNodesFacts(Filter(IsOutbound(), c.nodes));
    IndexExternalsFacts(c.externals);
  }

  // ---------------------------------------------------------------- the client resolves as the cluster does

  lemma NodeCandidateCount(c: Cluster, user: User, uuid: string, p: Policy)
    requires WellFormed(c)
    ensures var names := NodeNames(Filter(SelectedNode(p), c.nodes));
            && |names| == |ClientNodeMatches(HandlerInput(c, user, uuid), p)|
            && forall x :: x in names <==> x in ClientNodeMatches(HandlerInput(c, user, uuid), p)
  {
    var ns, input := Filter(SelectedNode(p), c.nodes), HandlerInput(c, user, uuid);
    var names := NodeNames(ns);
    HandlerFacts(c, user, uuid);
    FilterMembers(SelectedNode(p), c.nodes);
    FilterNoDup(SelectedNode(p), c.nodes);
    forall i, j | 0 <= i < j < |names| ensures names[i] != names[j] { assert ns[i] in ns && ns[j] in ns; }
    forall x ensures x in names <==> x in ClientNodeMatches(input, p) {
      if x in names {
        var i :| 0 <= i < |names| && names[i] == x;
        assert ns[i] in ns;
      }
      if x in ClientNodeMatches(input, p) {
        var n := input.outboundsByName[x];
        var i :| 0 <= i < |ns| && ns[i] == n;
        assert names[i] == x;
      }
    }
    NoDupCardinality(names, ClientNodeMatches(input, p));
  }

  lemma ExternalCandidateCount(c: Cluster, user: User, uuid: string, p: Policy)
    requires WellFormed(c)
    ensures var names := ExternalNames(Filter(SelectedExternal(p), c.externals));
            && |names| == |ClientExternalMatches(HandlerInput(c, user, uuid), p)|
            && forall x :: x in names <==> x in ClientExternalMatches(HandlerInput(c, user, uuid), p)
  {
    var es, input := Filter(SelectedExternal(p), c.externals), HandlerInput(c, user, uuid);
    var names := ExternalNames(es);
    HandlerFacts(c, user, uuid);
    FilterMembers(SelectedExternal(p), c.externals);
    FilterNoDup(SelectedExternal(p), c.externals);
    forall i, j | 0 <= i < j < |names| ensures names[i] != names[j] { assert es[i] in es && es[j] in es; }
    forall x ensures x in names <==> x in ClientExternalMatches(input, p) {
      if x in names {
        var i :| 0 <= i < |names| && names[i] == x;
        assert es[i] in es;
      }
      if x in ClientExternalMatches(input, p) {
        var e := input.externalsByName[x];
        var i :| 0 <= i < |es| && es[i] == e;
        assert names[i] == x;
      }
    }
    NoDupCardinality(names, ClientExternalMatches(input, p));
  }

  /** The client counts as many targets as the controllers do, and finds the same one. */
  lemma ClientResolvesGlobally(c: Cluster, user: User, uuid: string, p: Policy)
    requires WellFormed(c)
    ensures var names := Candidates(p, c.nodes, c.externals); var input := HandlerInput(c, user, uuid);
            MatchCount(input, p) == |names| && (|names| == 1 ==> ClientTarget(input, p) == names[0])
  {
    var names, input := Candidates(p, c.nodes, c.externals), HandlerInput(c, user, uuid);
    NodeCandidateCount(c, user, uuid, p);
    ExternalCandidateCount(c, user, uuid, p);
    if |names| == 1 {
      var a, b := NodeNames(Filter(SelectedNode(p), c.nodes)), ExternalNames(Filter(SelectedExternal(p), c.externals));
      assert names[0] in a || names[0] in b;
      SingletonUnion(ClientNodeMatches(input, p), ClientExternalMatches(input, p), names[0]);
    }
  }

  // ---------------------------------------------------------------- policy target isolation

  ghost predicate ActiveTarget(input: ClientInput, t: string) {
    exists p :: p in input.policies && p.action == ROUTE && MatchCount(input, p) == 1 && ClientTarget(input, p) == t
  }

  /** On a handler-built input, an active policy's target is policy-only once isolated. */
  lemma ActiveTargetIsPolicyOnly(c: Cluster, user: User, uuid: string, t: string)
    requires WellFormed(c) && ActiveTarget(HandlerInput(c, user, uuid), t)
    ensures t in HandlerInput(c, user, uuid).policyOnly
  {
    var input := HandlerInput(c, user, uuid);
    var p :| p in input.policies && p.action == ROUTE && MatchCount(input, p) == 1 && ClientTarget(input, p) == t;
    ClientResolvesGlobally(c, user, uuid, p);
    assert Candidates(p, c.nodes, c.externals)[0] == t;
  }

  lemma RefForName(input: ClientInput, inbound: Node, name: string)
    requires Keyed(input) && RefFor(input, inbound, name).Some?
    ensures RefFor(input, inbound, name).value.name == name && Selectable(input, name)
  {}

  lemma RefsFacts(input: ClientInput, name: string, r: Ref)
    requires Keyed(input) && r in RefsByName(input, name)
    ensures FindInbound(input.inboundNodes, name).Some?
    ensures RefFor(input, FindInbound(input.inboundNodes, name).value, r.name) == Some(r) && Selectable(input, r.name)
  {
    var n := FindInbound(input.inboundNodes, name).value;
    var names := SortedSet(ReachableNames(input, n));
    var i :| 0 <= i < |Refs(input, n)| && Refs(input, n)[i] == r;
    assert names[i] in names;
    RefForName(input, n, names[i]);
  }

  lemma {:induction false} ShownFacts(input: ClientInput, ps: seq<Path>)
    ensures forall p :: p in ShownPaths(input, ps) <==> p in ps && Shown(input, p.ref)
  {
    if ps != [] {
      ShownFacts(input, ps[..|ps| - 1]);
      assert ps == ps[..|ps| - 1] + [ps[|ps| - 1]];
    }
  }

  /** An advertised path: from a listed inbound node with a usable entry, to a target that node resolves, in some group. */
  ghost predicate IsPath(input: ClientInput, nodes: seq<Node>, p: Path) {
    && p.inbound in nodes && EntryOf(input, p.inbound) == Some(p.entry)
    && p.ref in RefsByName(input, p.inbound.name) && Shown(input, p.ref)
  }

  lemma PathsFromFacts(input: ClientInput, n: Node, p: Path)
    ensures p in ShownPaths(input, PathsFrom(input, n)) <==> IsPath(input, [n], p)
  {
    hide EntryOf, RefsByName, Shown, ShownPaths;
    var from, refs := PathsFrom(input, n), RefsByName(input, n.name);
    ShownFacts(input, from);
    if p in from {
      var i :| 0 <= i < |from| && from[i] == p;
      assert refs[i] in refs;
    }
    if IsPath(input, [n], p) {
      var i :| 0 <= i < |refs| && refs[i] == p.ref;
      assert from[i] == p;
    }
  }

  lemma {:induction false} PathFacts(input: ClientInput, nodes: seq<Node>, p: Path)
    ensures p in Paths(input, nodes) <==> IsPath(input, nodes, p)
  {
    hide EntryOf, RefsByName, Shown, ShownPaths, PathsFrom;
    if nodes != [] {
      var front, n := nodes[..|nodes| - 1], nodes[|nodes| - 1];
      PathFacts(input, front, p);
      PathsFromFacts(input, n, p);
      assert nodes == front + [n];
    }
  }

  /** Names as Kubernetes allows them, in particular without '#'. */
  ghost predicate HashFreeNames(input: ClientInput) {
    && (forall n :: n in input.inboundNodes ==> HashFree(n.name))
    && (forall k :: k in input.outboundsByName || k in input.externalsByName ==> HashFree(k))
  }

  lemma PathNames(input: ClientInput, p: Path)
    requires Keyed(input) && HashFreeNames(input) && p in Paths(input, input.inboundNodes)
    ensures HashFree(p.inbound.name) && HashFree(p.ref.name) && Selectable(input, p.ref.name)
  {
    PathFacts(input, input.inboundNodes, p);
    RefsFacts(input, p.inbound.name, p.ref);
  }

  lemma PathTagHash(i: string, t: string)
    requires HashFree(t)
    ensures HashFree(PathTag(i, t)) <==> i == t
  {
    if i != t { assert PathTag(i, t)[|t|] == '#'; }
  }

  /** A path tag determines its target, and its inbound node. */
  lemma PathTagInjective(i: string, t: string, j: string, s: string)
    requires HashFree(i) && HashFree(t) && HashFree(j) && HashFree(s)
    requires PathTag(i, t) == PathTag(j, s)
    ensures i == j && t == s
  {
    PathTagHash(i, t);
    PathTagHash(j, s);
    if i != t {
      assert PathTag(i, t) == VirtualUser(t, i) && PathTag(j, s) == VirtualUser(s, j);
      VirtualUserInjective(t, i, s, j);
    }
  }

  ghost predicate Lists(os: seq<ClientOutbound>, g: string, tag: string) {
    exists o :: o in os && o.GroupSelector? && o.tag == g && tag in o.members
  }

  lemma OutboundMember(input: ClientInput, o: ClientOutbound)
    ensures var ps := Paths(input, input.inboundNodes);
            o in OutboundsOf(input) <==> o in Proxies(input, ps) || o in Selectors(input, ps) || o == ClientDirect(DIRECT)
  {}

  lemma SelectorShape(input: ClientInput, ps: seq<Path>, o: ClientOutbound)
    requires o in Selectors(input, ps)
    ensures o.GroupSelector? && o.tag in GROUPS && Members(input, ps, o.tag) != {}
    ensures o.members == SortedSet(Members(input, ps, o.tag)) && o.members != []
  {
    var gs := SelectorTags(input, ps);
    var i :| 0 <= i < |gs| && Selectors(input, ps)[i] == o;
    assert gs[i] in gs;
    var x :| x in Members(input, ps, gs[i]);
    assert x in o.members;
  }

  lemma SelectorExists(input: ClientInput, ps: seq<Path>, g: string)
    requires g in GROUPS && Members(input, ps, g) != {}
    ensures GroupSelector(g, SortedSet(Members(input, ps, g))) in Selectors(input, ps)
  {
    var gs := SelectorTags(input, ps);
    assert g in gs;
    var i :| 0 <= i < |gs| && gs[i] == g;
    assert Selectors(input, ps)[i] == GroupSelector(g, SortedSet(Members(input, ps, g)));
  }

  lemma ProxyShape(input: ClientInput, ps: seq<Path>, o: ClientOutbound)
    ensures o in Proxies(input, ps) <==> exists p :: p in ps && o == ProxyOf(input, p)
  {
    var xs := Proxies(input, ps);
    if o in xs {
      var i :| 0 <= i < |xs| && xs[i] == o;
      assert ps[i] in ps;
    }
    if p :| p in ps && o == ProxyOf(input, p) {
      var i :| 0 <= i < |ps| && ps[i] == p;
      assert xs[i] == o;
    }
  }

  lemma SelectorLists(input: ClientInput, g: string, tag: string)
    ensures Lists(OutboundsOf(input), g, tag) <==> g in GROUPS && tag in Members(input, Paths(input, input.inboundNodes), g)
  {
    var ps, os := Paths(input, input.inboundNodes), OutboundsOf(input);
    if Lists(os, g, tag) {
      var o :| o in os && o.GroupSelector? && o.tag == g && tag in o.members;
      OutboundMember(input, o);
      ProxyShape(input, ps, o);
      SelectorShape(input, ps, o);
    }
    if g in GROUPS && tag in Members(input, ps, g) {
      SelectorExists(input, ps, g);
      OutboundMember(input, GroupSelector(g, SortedSet(Members(input, ps, g))));
    }
  }

  /** No active route policy's target is offered in a regional selector, and none outside the ai group anywhere. */
  lemma PolicyTargetIsolation(c: Cluster, user: User, uuid: string, t: string, i: string, g: string)
    requires WellFormed(c) && ClientConfigOf(HandlerInput(c, user, uuid)).Ok? && HashFreeNames(HandlerInput(c, user, uuid))
    requires ActiveTarget(HandlerInput(c, user, uuid), t) && HashFree(i) && HashFree(t)
    ensures var input, os := HandlerInput(c, user, uuid), ClientConfigOf(HandlerInput(c, user, uuid)).value;
            Lists(os, g, PathTag(i, t)) ==> g == AI && TargetHasGroup(input, t, AI)
  {
    var input := HandlerInput(c, user, uuid);
    var isolated := Isolated(input, ClientPlan(input).value.targets);
    ActiveTargetIsPolicyOnly(c, user, uuid, t);
    HandlerFacts(c, user, uuid);
    SelectorLists(isolated, g, PathTag(i, t));
    var ps := Paths(isolated, isolated.inboundNodes);
    if PathTag(i, t) in Members(isolated, ps, g) {
      var p :| p in ps && Kept(isolated, p.ref, g) && TagOf(p) == PathTag(i, t);
      PathNames(isolated, p);
      PathTagInjective(i, t, p.inbound.name, p.ref.name);
    }
  }

  // ---------------------------------------------------------------- selector closure

  function ProxyTags(os: seq<ClientOutbound>): set<string> { set o | o in os && o.Proxy? :: o.tag }

  lemma ProxyTagsAre(input: ClientInput, tag: string)
    ensures tag in ProxyTags(OutboundsOf(input)) <==> exists p :: p in Paths(input, input.inboundNodes) && TagOf(p) == tag
  {
    var ps, os := Paths(input, input.inboundNodes), OutboundsOf(input);
    if tag in ProxyTags(os) {
      var o :| o in os && o.Proxy? && o.tag == tag;
      OutboundMember(input, o);
      if o in Selectors(input, ps) { SelectorShape(input, ps, o); }
      ProxyShape(input, ps, o);
    }
    if p :| p in ps && TagOf(p) == tag {
      ProxyShape(input, ps, ProxyOf(input, p));
      OutboundMember(input, ProxyOf(input, p));
    }
  }

  /** Selector members are exactly the emitted proxy tags. */
  lemma SelectorClosure(input: ClientInput, tag: string)
    ensures tag in ProxyTags(OutboundsOf(input)) <==> exists g :: Lists(OutboundsOf(input), g, tag)
  {
    var ps := Paths(input, input.inboundNodes);
    ProxyTagsAre(input, tag);
    forall g ensures Lists(OutboundsOf(input), g, tag) <==> g in GROUPS && tag in Members(input, ps, g) { SelectorLists(input, g, tag); }
    if p :| p in ps && TagOf(p) == tag {
      PathFacts(input, input.inboundNodes, p);
      var g :| g in p.ref.clientGroups && Kept(input, p.ref, g);
      assert tag in Members(input, ps, g);
      assert Lists(OutboundsOf(input), g, tag);
    }
  }

  lemma NoEmptySelector(input: ClientInput, o: ClientOutbound)
    requires o in OutboundsOf(input) && o.GroupSelector?
    ensures o.tag in GROUPS && o.members != [] && Ascending(o.members)
  {
    var ps := Paths(input, input.inboundNodes);
    OutboundMember(input, o);
    ProxyShape(input, ps, o);
    SelectorShape(input, ps, o);
    SortedSetAscending(Members(input, ps, o.tag));
  }
}
