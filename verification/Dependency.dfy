/** Which nodes are re-reconciled when an ExternalOutbound changes, against which configs can change. */
module Dependency {

  import opened Ordering
  import opened Resources
  import opened Intent
  import opened Engine
  import opened Controller
  import opened Collected

  // ---------------------------------------------------------------- the event mapper

  ghost predicate SelectedByPolicy(ps: seq<Policy>, node: Node, e: External) {
    exists p :: p in ps && p.action == ROUTE && Matches(p.ingress, node.name, node.labels) && Matches(p.egress, e.name, e.labels)
  }

  ghost predicate Affected(c: Cluster, name: string, region: string, node: Node) {
    && HasRole(node, Inbound)
    && (|| (region != "" && node.region == region)
        || (match FindExternal(c.externals, name) case Some(e) => SelectedByPolicy(c.policies, node, e) case None => false))
  }

  method InboundsAffectedByExternalOutbound(c: Cluster, name: string, region: string) returns (requests: seq<string>)
    ensures NoDup(requests)
    ensures forall x :: x in requests <==> exists n :: n in c.nodes && n.name == x && Affected(c, name, region, n)
  {
    var found := FindExternal(c.externals, name);
    var seen: set<string> := {};
    requests := [];
    for i := 0 to |c.nodes|
      invariant NoDup(requests) && seen == set x | x in requests
      invariant forall x :: x in requests <==> exists n :: n in c.nodes[..i] && n.name == x && Affected(c, name, region, n)
    {
      var node := c.nodes[i];
      assert c.nodes[..i + 1] == c.nodes[..i] + [node];
      if HasRole(node, Inbound) {
        var affected := region != "" && node.region == region;
        if found.Some? {
          var byPolicy := AnyPolicySelects(c.policies, node, found.value);
          affected := affected || byPolicy;
        }
        if affected && node.name !in seen {
          seen := seen + {node.name};
          requests := requests + [node.name];
        }
      }
    }
    assert c.nodes[..|c.nodes|] == c.nodes;
  }

  method AnyPolicySelects(ps: seq<Policy>, node: Node, e: External) returns (r: bool)
    ensures r == SelectedByPolicy(ps, node, e)
  {
    r := false;
    for j := 0 to |ps|
      invariant r == SelectedByPolicy(ps[..j], node, e)
    {
      var p := ps[j];
      assert ps[..j + 1] == ps[..j] + [p];
      if p.action == ROUTE && Matches(p.ingress, node.name, node.labels) && Matches(p.egress, e.name, e.labels) {
        assert p in ps;
        return true;
      }
    }
    assert ps[..|ps|] == ps;
  }

  // ---------------------------------------------------------------- an unaffected node's input does not change

  /** `c1` is `c0` with the external `e` listed somewhere. */
  ghost predicate Adds(c0: Cluster, c1: Cluster, e: External) {
    && WellFormed(c1) && c0 == c1.(externals := c0.externals) && e !in c0.externals
    && exists a, b :: c0.externals == a + b && c1.externals == a + [e] + b
  }

  lemma FilterWithout(f: External -> bool, c0: Cluster, c1: Cluster, e: External)
    requires Adds(c0, c1, e) && !f(e)
    ensures Filter(f, SortedExternals(c0)) == Filter(f, SortedExternals(c1))
  {
    var a, b :| c0.externals == a + b && c1.externals == a + [e] + b;
    NameOrders();
    FilterSort(f, c0.externals, ExternalLe);
    FilterSort(f, c1.externals, ExternalLe);
    FilterConcat(f, a, b);
    FilterConcat(f, a + [e], b);
    FilterConcat(f, a, [e]);
    assert Filter(f, [e]) == [] by { FilterCons(f, e, []); assert [e] == [e] + []; }
    assert Filter(f, a) + [] == Filter(f, a);
  }

  predicate OutOfRegion(e: External, node: Node) { !(e.region != "" && node.region == e.region) }

  ghost predicate Unaffected(c1: Cluster, e: External, node: Node) {
    OutOfRegion(e, node) && !SelectedByPolicy(c1.policies, node, e)
  }

  ghost predicate Concerns(node: Node, p: Policy) { p.action == ROUTE && Matches(p.ingress, node.name, node.labels) }

  lemma ResolveUnaffected(c0: Cluster, c1: Cluster, e: External, p: Policy)
    requires Adds(c0, c1, e) && (p.action == ROUTE ==> !SelectedExternal(p)(e))
    ensures Resolve(p, SortedNodes(c0), SortedExternals(c0)) == Resolve(p, SortedNodes(c1), SortedExternals(c1))
  {
    if p.action == ROUTE {
      FilterWithout(SelectedExternal(p), c0, c1, e);
    }
  }

  lemma LookupUnaffected(c0: Cluster, c1: Cluster, e: External, name: string)
    requires Adds(c0, c1, e) && name != e.name
    ensures FindExternal(SortedExternals(c0), name) == FindExternal(SortedExternals(c1), name)
  {
    SortedMembers(c0);
    SortedMembers(c1);
    var a, b :| c0.externals == a + b && c1.externals == a + [e] + b;
    assert forall x :: x in c1.externals <==> x in c0.externals || x == e;
    var l, r := FindExternal(SortedExternals(c0), name), FindExternal(SortedExternals(c1), name);
    if l.Some? { assert l.value in SortedExternals(c1); }
    if r.Some? { assert r.value in c0.externals; }
  }

  /** The target of a policy that does not select `e` is not an external named like `e`. */
  lemma TargetIsNotAdded(c0: Cluster, c1: Cluster, e: External, node: Node, p: Policy)
    requires Adds(c0, c1, e) && Concerns(node, p) && !SelectedExternal(p)(e)
    requires GlobalTarget(c1, p) != "" && FindNode(SortedNodes(c1), GlobalTarget(c1, p)).None?
    ensures GlobalTarget(c1, p) != e.name
  {
    var t := GlobalTarget(c1, p);
    var names, more := NodeNames(Filter(SelectedNode(p), SortedNodes(c1))), ExternalNames(Filter(SelectedExternal(p), SortedExternals(c1)));
    CandidateNames(c1, p);
    SortedMembers(c1);
    assert names + more == [t];
    assert t in names || t in more by { assert (names + more)[0] == t; }
    assert e in c1.externals;
    if t in more {
      var x :| x in c1.externals && SelectedExternal(p)(x) && x.name == t;
      assert x != e;
    }
  }

  lemma PolicyUnaffected(c0: Cluster, c1: Cluster, e: External, node: Node, p: Policy)
    requires Adds(c0, c1, e) && (Concerns(node, p) ==> !SelectedExternal(p)(e))
    ensures Admits(node, SortedNodes(c0), SortedExternals(c0), p) == Admits(node, SortedNodes(c1), SortedExternals(c1), p)
    ensures Admits(node, SortedNodes(c1), SortedExternals(c1), p) ==>
              && PolicyNode(p, SortedNodes(c0), SortedExternals(c0)) == PolicyNode(p, SortedNodes(c1), SortedExternals(c1))
              && PolicyExternal(p, SortedNodes(c0), SortedExternals(c0)) == PolicyExternal(p, SortedNodes(c1), SortedExternals(c1))
  {
    if Matches(p.ingress, node.name, node.labels) {
      ResolveUnaffected(c0, c1, e, p);
      var t := GlobalTarget(c1, p);
      if p.action == ROUTE && t != "" && FindNode(SortedNodes(c1), t).None? {
        TargetIsNotAdded(c0, c1, e, node, p);
        LookupUnaffected(c0, c1, e, t);
      }
    }
  }

  lemma OutOfReach(c1: Cluster, e: External, node: Node)
    requires WellFormed(c1) && e in c1.externals && OutOfRegion(e, node)
    ensures !Connected(node, e.name, SortedNodes(c1), SortedExternals(c1))
  {
    hide SortedNodes, SortedExternals;
    SortedMembers(c1);
    assert FindNode(SortedNodes(c1), e.name).None? && FindExternal(SortedExternals(c1), e.name) == Some(e);
  }

  /** A policy that selects an external of another region is not admitted while that external exists: it is
      ambiguous, or its one target is out of reach. */
  lemma SelectingIsNotAdmitted(c1: Cluster, e: External, node: Node, p: Policy)
    requires WellFormed(c1) && e in c1.externals && OutOfRegion(e, node) && Concerns(node, p) && SelectedExternal(p)(e)
    ensures !Admits(node, SortedNodes(c1), SortedExternals(c1), p)
  {
    hide SortedNodes, SortedExternals, Filter;
    var nodes, externals := SortedNodes(c1), SortedExternals(c1);
    var names, more := NodeNames(Filter(SelectedNode(p), nodes)), ExternalNames(Filter(SelectedExternal(p), externals));
    assert e.name in more by { CandidateNames(c1, p); }
    var i :| 0 <= i < |more| && more[i] == e.name;
    assert (names + more)[|names| + i] == e.name;
    OutOfReach(c1, e, node);
    hide Connected, NodeNames, ExternalNames, CriteriaValid;
  }

  /** No policy admitted without `e` selects it. */
  ghost predicate NoneReinstated(c0: Cluster, e: External, node: Node) {
    forall p :: AdmittedRoute(c0, node, p) ==> !SelectedExternal(p)(e)
  }

  lemma AdmissionUnaffected(c0: Cluster, c1: Cluster, e: External, node: Node, p: Policy)
    requires Adds(c0, c1, e) && OutOfRegion(e, node) && NoneReinstated(c0, e, node) && p in c1.policies
    ensures Admits(node, SortedNodes(c0), SortedExternals(c0), p) == Admits(node, SortedNodes(c1), SortedExternals(c1), p)
  {
    if Concerns(node, p) && SelectedExternal(p)(e) {
      assert e in c1.externals;
      SelectingIsNotAdmitted(c1, e, node, p);
      FilterMembers(Admission(node, SortedNodes(c0), SortedExternals(c0)), c0.policies);
      assert AdmittedRoute(c0, node, p) <==> Admission(node, SortedNodes(c0), SortedExternals(c0))(p);
    } else {
      PolicyUnaffected(c0, c1, e, node, p);
    }
  }

  lemma {:induction false} PolicyTargetsUnaffected(c0: Cluster, c1: Cluster, e: External, node: Node, ps: seq<Policy>)
    requires Adds(c0, c1, e) && OutOfRegion(e, node)
    requires forall p :: p in ps ==> Admits(node, SortedNodes(c1), SortedExternals(c1), p)
    ensures PolicyNodes(ps, SortedNodes(c0), SortedExternals(c0)) == PolicyNodes(ps, SortedNodes(c1), SortedExternals(c1))
    ensures PolicyExternals(ps, SortedNodes(c0), SortedExternals(c0)) == PolicyExternals(ps, SortedNodes(c1), SortedExternals(c1))
  {
    if ps != [] {
      var p := ps[|ps| - 1];
      assert e in c1.externals;
      PolicyTargetsUnaffected(c0, c1, e, node, ps[..|ps| - 1]);
      if Concerns(node, p) && SelectedExternal(p)(e) { SelectingIsNotAdmitted(c1, e, node, p); }
      PolicyUnaffected(c0, c1, e, node, p);
    }
  }

  lemma AdmittedUnaffected(c0: Cluster, c1: Cluster, e: External, node: Node)
    requires Adds(c0, c1, e) && OutOfRegion(e, node) && NoneReinstated(c0, e, node)
    ensures AdmittedPolicies(c0, node) == AdmittedPolicies(c1, node)
    ensures forall p :: p in AdmittedPolicies(c1, node) ==> Admits(node, SortedNodes(c1), SortedExternals(c1), p)
  {
    var f, g := Admission(node, SortedNodes(c0), SortedExternals(c0)), Admission(node, SortedNodes(c1), SortedExternals(c1));
    forall p | p in c1.policies ensures f(p) == g(p) { AdmissionUnaffected(c0, c1, e, node, p); }
    FilterCongruence(f, g, c1.policies);
    FilterMembers(g, c1.policies);
  }

  lemma KnownUnaffected(c0: Cluster, c1: Cluster, e: External, node: Node)
    requires Adds(c0, c1, e) && OutOfRegion(e, node) && NoneReinstated(c0, e, node)
    ensures Discovered(c0, node) == Discovered(c1, node)
    ensures KnownNodes(c0, node) == KnownNodes(c1, node) && KnownExternals(c0, node) == KnownExternals(c1, node)
  {
    FilterWithout(Discoverable(Taken(node, c1.nodes), node), c0, c1, e);
    AdmittedUnaffected(c0, c1, e, node);
    PolicyTargetsUnaffected(c0, c1, e, node, AdmittedPolicies(c1, node));
  }

  lemma {:induction false} SetsUnaffected(c0: Cluster, c1: Cluster, us: seq<User>)
    requires c0.groups == c1.groups
    ensures DeniedSets(c0, us) == DeniedSets(c1, us) && AllowedSets(c0, us) == AllowedSets(c1, us)
  {
    if us != [] { SetsUnaffected(c0, c1, us[..|us| - 1]); }
  }

  /** The input of a node changes with an external of another region exactly when some policy admitted without the
      external selects it: the external makes that policy ambiguous. */
  lemma InputChangesIffReinstated(c0: Cluster, c1: Cluster, e: External, node: Node)
    requires Adds(c0, c1, e) && OutOfRegion(e, node)
    ensures InputOf(c0, node) == InputOf(c1, node) <==> NoneReinstated(c0, e, node)
  {
    if NoneReinstated(c0, e, node) {
      AdmittedUnaffected(c0, c1, e, node);
      KnownUnaffected(c0, c1, e, node);
      SetsUnaffected(c0, c1, SortedUsers(c1, node));
    } else {
      var p :| AdmittedRoute(c0, node, p) && SelectedExternal(p)(e);
      AdmittedFacts(c0, node, p);
      assert e in c1.externals;
      SelectingIsNotAdmitted(c1, e, node, p);
      FilterMembers(Admission(node, SortedNodes(c1), SortedExternals(c1)), c1.policies);
      assert p !in AdmittedPolicies(c1, node);
    }
  }

  lemma InputUnaffected(c0: Cluster, c1: Cluster, e: External, node: Node)
    requires Adds(c0, c1, e) && Unaffected(c1, e, node)
    ensures InputOf(c0, node) == InputOf(c1, node)
  {
    forall p | AdmittedRoute(c0, node, p) ensures !SelectedExternal(p)(e) {
      AdmittedFacts(c0, node, p);
    }
    InputChangesIffReinstated(c0, c1, e, node);
  }

  lemma OutboundOnlyUnaffected(c0: Cluster, c1: Cluster, e: External, node: Node)
    requires Adds(c0, c1, e) && !HasRole(node, Inbound)
    ensures ConfigOf(InputOf(c0, node)) == ConfigOf(InputOf(c1, node))
  {
    var a, b := InputOf(c0, node), InputOf(c1, node);
    FilterMembers(Admission(node, SortedNodes(c0), SortedExternals(c0)), c0.policies);
    FilterMembers(Admission(node, SortedNodes(c1), SortedExternals(c1)), c1.policies);
    HasMember(a.policies);
    HasMember(b.policies);
    assert a.policies == [] && b.policies == [];
    assert RelayListener(a) == RelayListener(b) || !HasRole(node, Outbound);
  }

  /** If the presence of `e` changes the config of a node, the mapper run while `e` exists enqueues that node. */
  lemma DependencyComplete(c0: Cluster, c1: Cluster, e: External, node: Node)
    requires Adds(c0, c1, e) && node in c1.nodes
    requires ConfigOf(InputOf(c0, node)) != ConfigOf(InputOf(c1, node))
    ensures Affected(c1, e.name, e.region, node)
  {
    assert e in c1.externals;
    assert FindExternal(c1.externals, e.name) == Some(e);
    if !HasRole(node, Inbound) {
      OutboundOnlyUnaffected(c0, c1, e, node);
    } else if Unaffected(c1, e, node) {
      InputUnaffected(c0, c1, e, node);
    }
  }

  /** Run once `e` is gone, the mapper is left with region matching alone. */
  lemma AfterDeletionOnlyRegion(c0: Cluster, c1: Cluster, e: External, node: Node)
    requires Adds(c0, c1, e)
    ensures Affected(c0, e.name, e.region, node) <==> HasRole(node, Inbound) && e.region != "" && node.region == e.region
  {
    var a, b :| c0.externals == a + b && c1.externals == a + [e] + b;
    forall x | x in c0.externals ensures x.name != e.name {
      assert x in c1.externals && e in c1.externals;
    }
  }

  /** What that costs: of the inbound nodes whose input the deletion of `e` changes, the mapper misses exactly those
      outside its region, each for a policy that `e` had made ambiguous. */
  lemma MissedAfterDeletion(c0: Cluster, c1: Cluster, e: External, node: Node)
    requires Adds(c0, c1, e) && HasRole(node, Inbound)
    ensures InputOf(c0, node) != InputOf(c1, node) && !Affected(c0, e.name, e.region, node)
            <==> OutOfRegion(e, node) && exists p :: AdmittedRoute(c0, node, p) && SelectedExternal(p)(e)
  {
    AfterDeletionOnlyRegion(c0, c1, e, node);
    if OutOfRegion(e, node) { InputChangesIffReinstated(c0, c1, e, node); }
  }

  /** While `e` exists the mapper enqueues an inbound node exactly when it shares the region of `e`, or a route policy
      picks both of them. */
  lemma AffectedWhilePresent(c1: Cluster, e: External, node: Node)
    requires WellFormed(c1) && e in c1.externals
    ensures Affected(c1, e.name, e.region, node) <==>
            Inbound in node.roles && ((e.region != "" && e.region == node.region)
              || exists p :: p in c1.policies && p.action == "route" && Picks(p.ingress, node.name, node.labels) && Picks(p.egress, e.name, e.labels))
  {
    assert FindExternal(c1.externals, e.name) == Some(e);
    assert forall s: Selector, name, labels :: Matches(s, name, labels) <==> Picks(s, name, labels);
    hide FindExternal, Matches, Picks;
  }
}
