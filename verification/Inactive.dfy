/** Route policies that match no target change nothing for clients. */
module Inactive {

  import opened Ordering
  import opened Resources
  import opened Engine
  import opened Endpoints
  import opened Controller
  import opened Collected
  import opened Client
  import opened Advertised
  import opened Json
  import opened Template

  /** A valid route policy whose selector matches nothing. */
  ghost predicate IsInactive(input: ClientInput, p: Policy) {
    Defect(p).None? && p.action == ROUTE && MatchCount(input, p) == 0
  }

  ghost function Acts(input: ClientInput): Policy -> bool { p => !IsInactive(input, p) }

  lemma {:induction false} PlanSkipsInactive(input: ClientInput, ps: seq<Policy>)
    ensures PlanOf(input, ps) == PlanOf(input, Filter(Acts(input), ps))
  {
    if ps != [] {
      var front, p := ps[..|ps| - 1], ps[|ps| - 1];
      PlanSkipsInactive(input, front);
      var kept := Filter(Acts(input), front);
      if Acts(input)(p) {
        assert (kept + [p])[..|kept|] == kept;
      } else {
        assert Filter(Acts(input), ps) == kept;
      }
    }
  }

  ghost predicate SameBut(a: ClientInput, b: ClientInput) { b == a.(policies := b.policies) }

  lemma MatchFrame(a: ClientInput, b: ClientInput, p: Policy)
    requires SameBut(a, b)
    ensures MatchCount(a, p) == MatchCount(b, p) && ClientTarget(a, p) == ClientTarget(b, p)
  {
    assert ClientNodeMatches(a, p) == ClientNodeMatches(b, p);
    assert ClientExternalMatches(a, p) == ClientExternalMatches(b, p);
  }

  lemma {:induction false} PlanFrame(a: ClientInput, b: ClientInput, ps: seq<Policy>)
    requires SameBut(a, b)
    ensures PlanOf(a, ps) == PlanOf(b, ps)
  {
    if ps != [] {
      PlanFrame(a, b, ps[..|ps| - 1]);
      if PlanOf(a, ps[..|ps| - 1]).Ok? {
        ExtendFrame(a, b, PlanOf(a, ps[..|ps| - 1]).value, ps[|ps| - 1]);
      }
    }
  }

  lemma ExtendFrame(a: ClientInput, b: ClientInput, plan: Plan, p: Policy)
    requires SameBut(a, b)
    ensures ExtendPlan(a, plan, p) == ExtendPlan(b, plan, p)
  {
    MatchFrame(a, b, p);
  }

  /** `b` is `a` with one inactive policy deleted from the list. */
  ghost predicate Deletes(a: ClientInput, b: ClientInput, p: Policy) {
    SameBut(a, b) && IsInactive(a, p) && exists l, r :: a.policies == l + [p] + r && b.policies == l + r
  }

  lemma PlanUnchanged(a: ClientInput, b: ClientInput, p: Policy)
    requires Deletes(a, b, p)
    ensures ClientPlan(a) == ClientPlan(b)
  {
    var l, r :| a.policies == l + [p] + r && b.policies == l + r;
    var f := Acts(a);
    PolicyLeIsOrder();
    FilterSort(f, a.policies, PolicyLe);
    FilterSort(f, b.policies, PolicyLe);
    FilterConcat(f, l + [p], r);
    FilterConcat(f, l, [p]);
    FilterConcat(f, l, r);
    FilterCons(f, p, []);
    assert [p] + [] == [p] && Filter(f, [p]) == [];
    assert Filter(f, l) + [] == Filter(f, l);
    PlanSkipsInactive(a, SortBy(a.policies, PolicyLe));
    PlanSkipsInactive(a, SortBy(b.policies, PolicyLe));
    PlanFrame(a, b, SortBy(b.policies, PolicyLe));
  }

  lemma RefsFrame(a: ClientInput, b: ClientInput, name: string)
    requires SameBut(a, b)
    ensures RefsByName(a, name) == RefsByName(b, name)
  {
    hide SortedSet, FindInbound, IsNodeAllowed;
    var found := FindInbound(a.inboundNodes, name);
    if found.Some? {
      var n := found.value;
      assert ReachableNames(a, n) == ReachableNames(b, n);
      assert Refs(a, n) == Refs(b, n);
    }
  }

  lemma {:induction false} ShownFrame(a: ClientInput, b: ClientInput, ps: seq<Path>)
    requires SameBut(a, b)
    ensures ShownPaths(a, ps) == ShownPaths(b, ps)
  {
    if ps != [] { ShownFrame(a, b, ps[..|ps| - 1]); }
  }

  lemma {:induction false} PathsFrame(a: ClientInput, b: ClientInput, nodes: seq<Node>)
    requires SameBut(a, b)
    ensures Paths(a, nodes) == Paths(b, nodes)
  {
    if nodes != [] {
      var n := nodes[|nodes| - 1];
      PathsFrame(a, b, nodes[..|nodes| - 1]);
      RefsFrame(a, b, n.name);
      assert PathsFrom(a, n) == PathsFrom(b, n);
      ShownFrame(a, b, PathsFrom(a, n));
    }
  }

  lemma SelectorsFrame(a: ClientInput, b: ClientInput, ps: seq<Path>)
    requires SameBut(a, b)
    ensures Selectors(a, ps) == Selectors(b, ps)
  {
    forall g ensures Members(a, ps, g) == Members(b, ps, g) {}
    assert (set g | g in GROUPS && Members(a, ps, g) != {}) == (set g | g in GROUPS && Members(b, ps, g) != {});
  }

  lemma OutboundsFrame(a: ClientInput, b: ClientInput)
    requires SameBut(a, b)
    ensures OutboundsOf(a) == OutboundsOf(b)
  {
    PathsFrame(a, b, a.inboundNodes);
    var ps := Paths(a, a.inboundNodes);
    assert Proxies(a, ps) == Proxies(b, ps);
    SelectorsFrame(a, b, ps);
  }

  /** Deleting an inactive policy changes neither the built config nor its error. */
  lemma InactiveIsNoOp(a: ClientInput, b: ClientInput, p: Policy)
    requires Deletes(a, b, p)
    ensures ClientPlan(a) == ClientPlan(b) && ClientConfigOf(a) == ClientConfigOf(b)
  {
    PlanUnchanged(a, b, p);
    if ClientPlan(a).Ok? {
      var t := ClientPlan(a).value.targets;
      assert Isolated(b, t) == Isolated(a, t).(policies := b.policies);
      OutboundsFrame(Isolated(a, t), Isolated(b, t));
    }
  }

  /** The same for a whole cluster: what the handler assembles differs only in the listed policies. */
  lemma InactiveIsNoOpInCluster(c1: Cluster, c0: Cluster, user: User, uuid: string, p: Policy, l: seq<Policy>, r: seq<Policy>)
    requires WellFormed(c1) && c0 == c1.(policies := l + r) && c1.policies == l + [p] + r
    requires IsInactive(HandlerInput(c1, user, uuid), p)
    ensures Deletes(HandlerInput(c1, user, uuid), HandlerInput(c0, user, uuid), p)
    ensures ClientConfigOf(HandlerInput(c1, user, uuid)) == ClientConfigOf(HandlerInput(c0, user, uuid))
  {
    ClientResolvesGlobally(c1, user, uuid, p);
    assert PolicyOnly(c1.policies, c1.nodes, c1.externals) == PolicyOnly(c0.policies, c0.nodes, c0.externals);
    InactiveIsNoOp(HandlerInput(c1, user, uuid), HandlerInput(c0, user, uuid), p);
  }

  lemma {:induction false} RuleSetErrorFrame(a: ClientInput, b: ClientInput, ps: seq<Policy>, defined: set<string>)
    requires SameBut(a, b)
    ensures RuleSetError(a, ps, defined) == RuleSetError(b, ps, defined)
  {
    if ps != [] {
      MatchFrame(a, b, ps[0]);
      RuleSetErrorFrame(a, b, ps[1..], defined);
    }
  }

  lemma {:induction false} RuleSetErrorSkips(a: ClientInput, l: seq<Policy>, p: Policy, r: seq<Policy>, defined: set<string>)
    requires Skipped(a, p)
    ensures RuleSetError(a, l + [p] + r, defined) == RuleSetError(a, l + r, defined)
  {
    if l == [] {
      assert l + [p] + r == [p] + r && ([p] + r)[1..] == r && l + r == r;
    } else {
      RuleSetErrorSkips(a, l[1..], p, r, defined);
      assert (l + [p] + r)[1..] == l[1..] + [p] + r && (l + r)[1..] == l[1..] + r;
    }
  }

  /** Deleting an inactive policy changes neither the merged document nor the merge error. */
  lemma InactiveIsNoOpForMerge(template: Json, os: seq<Object>, a: ClientInput, b: ClientInput, p: Policy, isAddress: string -> bool)
    requires Deletes(a, b, p)
    ensures MergeOf(template, os, a, isAddress) == MergeOf(template, os, b, isAddress)
  {
    PlanUnchanged(a, b, p);
    if ClientPlan(a).Ok? && template.Obj? {
      var m := Normalized(template.fields);
      if Get(m, "route").Obj? {
        var defined := DefinedSets(Get(m, "route").fields);
        var l, r :| a.policies == l + [p] + r && b.policies == l + r;
        RuleSetErrorSkips(a, l, p, r, defined);
        RuleSetErrorFrame(a, b, b.policies, defined);
      }
      assert TemplateError(m, RenderRules(ClientPlan(a).value.rules), a) == TemplateError(m, RenderRules(ClientPlan(a).value.rules), b);
    }
  }
}
