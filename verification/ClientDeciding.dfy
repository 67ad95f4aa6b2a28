/** What a user's policy rules decide, without naming how they were planned. */
module ClientDeciding {

  import opened Ordering
  import opened Resources
  import opened Intent
  import opened Engine
  import opened Routing
  import opened Client
  import opened Deciding

  // ---------------------------------------------------------------- first-match evaluation of client rules

  predicate Meets(k: Criteria, dest: Criteria -> bool) { k == Criteria([], [], [], [], []) || dest(k) }

  /** The decision of the first listed rule that hits, if any does. */
  function FirstHit(rules: seq<ClientRule>, dest: Criteria -> bool): Option<Decision> {
    if rules == [] then None
    else if Meets(rules[0].criteria, dest) then Some(if rules[0].action == "reject" then Rejected else Via(rules[0].outbound))
    else FirstHit(rules[1..], dest)
  }

  lemma {:induction false} FirstHitSnoc(rules: seq<ClientRule>, r: ClientRule, dest: Criteria -> bool)
    ensures FirstHit(rules + [r], dest) == if FirstHit(rules, dest).Some? then FirstHit(rules, dest) else FirstHit([r], dest)
  {
    if rules == [] {
      assert rules + [r] == [r];
    } else {
      FirstHitSnoc(rules[1..], r, dest);
      assert (rules + [r])[1..] == rules[1..] + [r];
    }
  }

  // ---------------------------------------------------------------- what a policy matches

  ghost predicate MatchesNode(input: ClientInput, p: Policy, x: string) {
    x in input.outboundsByName && Picks(p.egress, x, input.outboundsByName[x].labels)
  }

  ghost predicate MatchesExternal(input: ClientInput, p: Policy, x: string) {
    x in input.externalsByName && Picks(p.egress, x, input.externalsByName[x].labels)
  }

  /** Of all nodes and externals, the policy matches one, of that name. */
  ghost predicate MatchesOne(input: ClientInput, p: Policy, x: string) {
    && (MatchesNode(input, p, x) || MatchesExternal(input, p, x)) && !(MatchesNode(input, p, x) && MatchesExternal(input, p, x))
    && forall y :: MatchesNode(input, p, y) || MatchesExternal(input, p, y) ==> y == x
  }

  ghost predicate MatchesNone(input: ClientInput, p: Policy) {
    forall y :: !MatchesNode(input, p, y) && !MatchesExternal(input, p, y)
  }

  /** The resource of that name, a node before an external, lists the ai group. */
  ghost predicate ListsAi(input: ClientInput, x: string) {
    if x in input.outboundsByName then "ai" in input.outboundsByName[x].clientGroups
    else x in input.externalsByName && "ai" in input.externalsByName[x].clientGroups
  }

  lemma MatchSets(input: ClientInput, p: Policy)
    ensures forall x :: x in ClientNodeMatches(input, p) <==> MatchesNode(input, p, x)
    ensures forall x :: x in ClientExternalMatches(input, p) <==> MatchesExternal(input, p, x)
  {
    assert forall name, labels :: Matches(p.egress, name, labels) <==> Picks(p.egress, name, labels);
  }

  lemma MatchesNoneIsZero(input: ClientInput, p: Policy)
    ensures MatchCount(input, p) == 0 <==> MatchesNone(input, p)
  {
    MatchSets(input, p);
    var ns, es := ClientNodeMatches(input, p), ClientExternalMatches(input, p);
    hide ClientNodeMatches, ClientExternalMatches, MatchesNode, MatchesExternal;
    if MatchesNone(input, p) { assert ns == {} && es == {}; }
    if |ns| == 0 && |es| == 0 { assert ns == {} && es == {}; }
  }

  lemma MatchesOneIsTarget(input: ClientInput, p: Policy, x: string)
    ensures MatchCount(input, p) == 1 && ClientTarget(input, p) == x <==> MatchesOne(input, p, x)
  {
    MatchSets(input, p);
    var ns, es := ClientNodeMatches(input, p), ClientExternalMatches(input, p);
    hide ClientNodeMatches, ClientExternalMatches, MatchesNode, MatchesExternal;
    if |ns| + |es| == 1 {
      var t := ClientTarget(input, p);
      assert t in ns + es;
      OnlyOneLeft(ns, es, t);
    }
    if MatchesOne(input, p, x) {
      assert forall y :: y in ns || y in es ==> y == x;
      if x in ns {
        assert ns == {x} && es == {};
      } else {
        assert es == {x} && ns == {};
      }
      assert ns + es == {x};
    }
  }

  // ---------------------------------------------------------------- the acting policy

  /** A listed policy rules a destination it hits: by rejecting, or through the one target it matches. */
  ghost predicate ActsOn(input: ClientInput, p: Policy, dest: Criteria -> bool) {
    && p in input.policies && Meets(p.criteria, dest)
    && (p.action == "reject" || (p.action == "route" && exists x :: MatchesOne(input, p, x)))
  }

  ghost predicate ActsFirst(input: ClientInput, p: Policy, dest: Criteria -> bool) {
    ActsOn(input, p, dest) && forall r :: ActsOn(input, r, dest) && r != p ==> Precedes(p, r)
  }

  /** What an acting policy decides: traffic goes to the ai selector only if its one target is in the ai group. */
  ghost predicate Orders(input: ClientInput, p: Policy, d: Decision) {
    if p.action == "route" && exists x :: MatchesOne(input, p, x) && ListsAi(input, x) then d == Via("ai") else d == Rejected
  }

  /** The effect of one policy on the first hit. */
  lemma PlanStep(input: ClientInput, plan: Plan, p: Policy, dest: Criteria -> bool)
    requires p in input.policies && ExtendPlan(input, plan, p).Ok?
    ensures var more := ExtendPlan(input, plan, p).value;
            if FirstHit(plan.rules, dest).Some? then FirstHit(more.rules, dest) == FirstHit(plan.rules, dest)
            else if ActsOn(input, p, dest) then FirstHit(more.rules, dest).Some? && Orders(input, p, FirstHit(more.rules, dest).value)
            else FirstHit(more.rules, dest).None?
    ensures forall t :: t in ExtendPlan(input, plan, p).value.targets <==> t in plan.targets || (p.action == "route" && MatchesOne(input, p, t))
  {
    MatchesNoneIsZero(input, p);
    forall x ensures MatchCount(input, p) == 1 && ClientTarget(input, p) == x <==> MatchesOne(input, p, x) { MatchesOneIsTarget(input, p, x); }
    hide MatchCount, ClientTarget, MatchesOne, Meets;
    if p.action == REJECT {
      FirstHitSnoc(plan.rules, ClientRule(p.criteria, REJECT, ""), dest);
    } else if MatchCount(input, p) == 1 {
      var t := ClientTarget(input, p);
      assert MatchesOne(input, p, t);
      assert TargetHasGroup(input, t, AI) <==> ListsAi(input, t);
      FirstHitSnoc(plan.rules, RouteClientRule(input, p, t), dest);
    }
  }

  /** The rules planned from a list of policies decide as its first acting policy does; k is its place, or the list's length. */
  lemma {:induction false} PlanWalk(input: ClientInput, ps: seq<Policy>, k: nat, dest: Criteria -> bool)
    requires (forall p :: p in ps ==> p in input.policies) && PlanOf(input, ps).Ok?
    requires k <= |ps| && (forall j :: 0 <= j < k ==> !ActsOn(input, ps[j], dest)) && (k < |ps| ==> ActsOn(input, ps[k], dest))
    ensures var hit := FirstHit(PlanOf(input, ps).value.rules, dest);
            if k < |ps| then hit.Some? && Orders(input, ps[k], hit.value) else hit.None?
  {
    if ps != [] {
      var front, p := ps[..|ps| - 1], ps[|ps| - 1];
      assert p in ps;
      hide ActsOn, Orders, ExtendPlan, FirstHit, MatchesOne;
      PlanWalk(input, front, if k < |ps| then k else k - 1, dest);
      PlanStep(input, PlanOf(input, front).value, p, dest);
    }
  }

  lemma {:induction false} PlannedTargets(input: ClientInput, ps: seq<Policy>, t: string)
    requires (forall p :: p in ps ==> p in input.policies) && PlanOf(input, ps).Ok?
    ensures t in PlanOf(input, ps).value.targets <==> exists p :: p in ps && p.action == "route" && MatchesOne(input, p, t)
  {
    if ps != [] {
      var front, p := ps[..|ps| - 1], ps[|ps| - 1];
      assert ps == front + [p] && p in ps;
      hide ActsOn, Orders, ExtendPlan, FirstHit, MatchesOne;
      PlannedTargets(input, front, t);
      PlanStep(input, PlanOf(input, front).value, p, _ => false);
    }
  }

  lemma {:induction false} FirstActing(input: ClientInput, ps: seq<Policy>, dest: Criteria -> bool) returns (k: nat)
    ensures k <= |ps| && (forall j :: 0 <= j < k ==> !ActsOn(input, ps[j], dest)) && (k < |ps| ==> ActsOn(input, ps[k], dest))
  {
    hide ActsOn;
    if ps == [] || ActsOn(input, ps[0], dest) {
      k := 0;
    } else {
      k := FirstActing(input, ps[1..], dest);
      k := k + 1;
    }
  }

  lemma FirstActingIsLeast(input: ClientInput, ps: seq<Policy>, k: nat, dest: Criteria -> bool)
    requires ps == SortBy(input.policies, PolicyLe) && DistinctPolicies(input.policies)
    requires k < |ps| && ActsOn(input, ps[k], dest) && forall j :: 0 <= j < k ==> !ActsOn(input, ps[j], dest)
    ensures ActsFirst(input, ps[k], dest)
  {
    PolicyLeIsOrder();
    SortBySorts(input.policies, PolicyLe);
    SortMembers(input.policies, PolicyLe);
    ActingAreListed(input, dest);
    hide SortBy, IsOrder, ActsOn, PolicyLe, Precedes;
    var p := ps[k];
    assert p in ps;
    forall r | ActsOn(input, r, dest) && r != p ensures Precedes(p, r) {
      var j :| 0 <= j < |ps| && ps[j] == r;
      assert j > k && PolicyLe(p, r);
      PolicyLeIsPrecedes(p, r);
    }
  }

  lemma ActingAreListed(input: ClientInput, dest: Criteria -> bool)
    ensures forall p :: ActsOn(input, p, dest) ==> p in input.policies
  {}

  lemma ActsFirstIsUnique(input: ClientInput, p: Policy, r: Policy, dest: Criteria -> bool)
    requires DistinctPolicies(input.policies) && ActsFirst(input, p, dest) && ActsFirst(input, r, dest)
    ensures p == r
  {
    ActingAreListed(input, dest);
    hide ActsOn, Precedes;
    if p != r { PolicyLeIsPrecedes(p, r); }
  }

  /** For every destination, the planned rules give the decision of the acting policy of least priority and name; none
      hits when no policy acts. The targets are those the route policies match. */
  lemma LeastPolicyActs(input: ClientInput, dest: Criteria -> bool)
    requires DistinctPolicies(input.policies) && ClientPlan(input).Ok?
    ensures var hit := FirstHit(ClientPlan(input).value.rules, dest);
            && ((forall p :: !ActsOn(input, p, dest)) ==> hit.None?)
            && ((exists p :: ActsOn(input, p, dest)) ==> exists p :: ActsFirst(input, p, dest))
            && (forall p :: ActsFirst(input, p, dest) ==> hit.Some? && Orders(input, p, hit.value))
    ensures forall t :: t in ClientPlan(input).value.targets <==> exists p :: p in input.policies && p.action == "route" && MatchesOne(input, p, t)
  {
    var ps := SortBy(input.policies, PolicyLe);
    PolicyLeIsOrder();
    SortMembers(input.policies, PolicyLe);
    ActingAreListed(input, dest);
    hide SortBy, IsOrder, ActsOn, Orders, PlanOf, FirstHit, MatchesOne, Precedes;
    var k := FirstActing(input, ps, dest);
    PlanWalk(input, ps, k, dest);
    forall t ensures t in PlanOf(input, ps).value.targets <==> exists p :: p in ps && p.action == "route" && MatchesOne(input, p, t) {
      PlannedTargets(input, ps, t);
    }
    if k < |ps| {
      FirstActingIsLeast(input, ps, k, dest);
      forall r | ActsFirst(input, r, dest) ensures r == ps[k] { ActsFirstIsUnique(input, r, ps[k], dest); }
    }
  }

  // ---------------------------------------------------------------- when there is a plan

  /** The policy has no defect, and a route policy matches at most one target. */
  ghost predicate Fine(input: ClientInput, p: Policy) {
    && p.ingress.valid && p.egress.valid && Sound(p)
    && (p.fallbackAction == "" || p.fallbackAction == "reject") && (p.action == "route" || p.action == "reject")
    && (p.action == "route" ==> MatchesNone(input, p) || exists x :: MatchesOne(input, p, x))
  }

  lemma FineIsPlannable(input: ClientInput, plan: Plan, p: Policy)
    ensures ExtendPlan(input, plan, p).Ok? <==> Fine(input, p)
  {
    MatchesNoneIsZero(input, p);
    if MatchCount(input, p) == 1 { MatchesOneIsTarget(input, p, ClientTarget(input, p)); }
    forall x | MatchesOne(input, p, x) ensures MatchCount(input, p) == 1 { MatchesOneIsTarget(input, p, x); }
    ValidIsSound(p);
    hide MatchCount, ClientTarget, MatchesOne, MatchesNone, Sound, CriteriaValid;
  }

  lemma {:induction false} PlanOfFine(input: ClientInput, ps: seq<Policy>)
    ensures PlanOf(input, ps).Ok? <==> forall p :: p in ps ==> Fine(input, p)
  {
    if ps != [] {
      var front, p := ps[..|ps| - 1], ps[|ps| - 1];
      assert ps == front + [p] && p in ps;
      hide Fine, ExtendPlan;
      PlanOfFine(input, front);
      if PlanOf(input, front).Ok? { FineIsPlannable(input, PlanOf(input, front).value, p); }
    }
  }

  /** There is a plan exactly when every policy is fine. */
  lemma PlanIffFine(input: ClientInput)
    ensures ClientPlan(input).Ok? <==> forall p :: p in input.policies ==> Fine(input, p)
  {
    PolicyLeIsOrder();
    SortMembers(input.policies, PolicyLe);
    hide SortBy, Fine;
    PlanOfFine(input, SortBy(input.policies, PolicyLe));
  }

  // ---------------------------------------------------------------- which policy is blamed, and for what

  ghost predicate Blames(input: ClientInput, p: Policy, e: PolicyError) {
    && e.policy == p.name
    && (e.InvalidIngress? <==> !p.ingress.valid)
    && (e.InvalidEgress? <==> p.ingress.valid && !p.egress.valid)
    && (e.InvalidMatch? <==> p.ingress.valid && p.egress.valid && !Sound(p))
    && (e.NotUnique? ==> p.action == "route" && !MatchesNone(input, p) && (forall x :: !MatchesOne(input, p, x)) && e.count > 1)
    && (e.InvalidAction? ==> p.action != "route" && p.action != "reject" && (p.fallbackAction == "" || p.fallbackAction == "reject"))
    && (e.InvalidFallback? ==> p.fallbackAction != "" && p.fallbackAction != "reject")
  }

  lemma DefectIsBlamed(input: ClientInput, plan: Plan, p: Policy)
    requires ExtendPlan(input, plan, p).Err?
    ensures !Fine(input, p) && Blames(input, p, ExtendPlan(input, plan, p).error)
  {
    FineIsPlannable(input, plan, p);
    MatchesNoneIsZero(input, p);
    ValidIsSound(p);
    forall x | MatchesOne(input, p, x) ensures MatchCount(input, p) == 1 { MatchesOneIsTarget(input, p, x); }
    hide MatchCount, ClientTarget, MatchesOne, MatchesNone, Sound, CriteriaValid;
  }

  lemma {:induction false} FirstFault(input: ClientInput, ps: seq<Policy>) returns (k: nat)
    requires PlanOf(input, ps).Err?
    ensures k < |ps| && !Fine(input, ps[k]) && Blames(input, ps[k], PlanOf(input, ps).error) && forall j :: 0 <= j < k ==> Fine(input, ps[j])
  {
    var front := ps[..|ps| - 1];
    hide Fine, ExtendPlan, Blames;
    if PlanOf(input, front).Err? {
      k := FirstFault(input, front);
    } else {
      k := |ps| - 1;
      DefectIsBlamed(input, PlanOf(input, front).value, ps[k]);
      PlanOfFine(input, front);
      assert forall j :: 0 <= j < k ==> ps[j] == front[j];
    }
  }

  ghost predicate FaultsFirst(input: ClientInput, p: Policy) {
    p in input.policies && !Fine(input, p) && forall r :: r in input.policies && !Fine(input, r) && r != p ==> Precedes(p, r)
  }

  /** A plan that fails blames the faulty policy of least priority and name, for the first thing wrong with it. */
  lemma PlanErrorIsFirst(input: ClientInput)
    requires DistinctPolicies(input.policies) && ClientPlan(input).Err?
    ensures exists p :: FaultsFirst(input, p) && Blames(input, p, ClientPlan(input).error)
  {
    var ps := SortBy(input.policies, PolicyLe);
    PolicyLeIsOrder();
    SortBySorts(input.policies, PolicyLe);
    SortMembers(input.policies, PolicyLe);
    hide SortBy, IsOrder, PolicyLe, Precedes, Fine, Blames, PlanOf;
    var k := FirstFault(input, ps);
    var p := ps[k];
    assert p in ps;
    forall r | r in input.policies && !Fine(input, r) && r != p ensures Precedes(p, r) {
      var j :| 0 <= j < |ps| && ps[j] == r;
      assert j > k && PolicyLe(p, r);
      PolicyLeIsPrecedes(p, r);
    }
    assert FaultsFirst(input, p);
  }

  // ---------------------------------------------------------------- isolation

  /** Marked so by the caller, or the one target of a route policy and not in the ai group. */
  ghost predicate Confined(input: ClientInput, x: string) {
    x in input.policyOnly || (!ListsAi(input, x) && exists p :: p in input.policies && p.action == "route" && MatchesOne(input, p, x))
  }

  /** The config is built as if exactly the confined targets had been marked for policies only. */
  lemma ConfinedAreIsolated(input: ClientInput, marked: set<string>)
    requires DistinctPolicies(input.policies) && ClientConfigOf(input).Ok? && forall x :: x in marked <==> Confined(input, x)
    ensures ClientConfigOf(input).value == OutboundsOf(input.(policyOnly := marked))
  {
    LeastPolicyActs(input, _ => false);
    var targets := ClientPlan(input).value.targets;
    forall x ensures TargetHasGroup(input, x, AI) <==> ListsAi(input, x) {}
    hide ClientPlan, MatchesOne, ListsAi, TargetHasGroup, OutboundsOf;
    assert Isolated(input, targets).policyOnly == marked;
  }
}
