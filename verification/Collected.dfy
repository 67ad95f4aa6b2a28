/** What holds of every input the controller collects, and how policies resolve on it. */
module Collected {

  import opened Ordering
  import opened Resources
  import opened Engine
  import opened Controller

  ghost predicate DistinctUsers(s: seq<User>) {
    forall a, b :: a in s && b in s && a.name == b.name ==> a == b
  }

  /** What the API server guarantees: each object listed once, unique names per kind, ports as the schema bounds them;
      and what the NameConflict check reports on otherwise: no name shared between the two target kinds. */
  ghost predicate WellFormed(c: Cluster) {
    && DistinctNodes(c.nodes) && DistinctExternals(c.externals) && DistinctUsers(c.users) && DistinctPolicies(c.policies)
    && NoDup(c.nodes) && NoDup(c.externals)
    && (forall n, e :: n in c.nodes && e in c.externals ==> n.name != e.name)
    && (forall n :: n in c.nodes ==> n.relayPort >= 0)
  }

  // ---------------------------------------------------------------- indexes

  lemma {:induction false} IndexNodesFacts(ns: seq<Node>)
    ensures forall k :: k in IndexNodes(ns) ==> IndexNodes(ns)[k] in ns && IndexNodes(ns)[k].name == k
    ensures forall n :: n in ns ==> n.name in IndexNodes(ns)
  {
    if ns != [] {
      IndexNodesFacts(ns[..|ns| - 1]);
      assert ns == ns[..|ns| - 1] + [ns[|ns| - 1]];
    }
  }

  lemma {:induction false} IndexExternalsFacts(es: seq<External>)
    ensures forall k :: k in IndexExternals(es) ==> IndexExternals(es)[k] in es && IndexExternals(es)[k].name == k
    ensures forall e :: e in es ==> e.name in IndexExternals(es)
  {
    if es != [] {
      IndexExternalsFacts(es[..|es| - 1]);
      assert es == es[..|es| - 1] + [es[|es| - 1]];
    }
  }

  lemma {:induction false} PolicyNodesMembers(ps: seq<Policy>, nodes: seq<Node>, externals: seq<External>)
    ensures forall p, n :: p in ps && n in PolicyNode(p, nodes, externals) ==> n in PolicyNodes(ps, nodes, externals)
    ensures forall n :: n in PolicyNodes(ps, nodes, externals) ==> n in nodes && HasRole(n, Outbound)
  {
    if ps != [] {
      PolicyNodesMembers(ps[..|ps| - 1], nodes, externals);
      assert ps == ps[..|ps| - 1] + [ps[|ps| - 1]];
    }
  }

  lemma {:induction false} PolicyExternalsMembers(ps: seq<Policy>, nodes: seq<Node>, externals: seq<External>)
    ensures forall p, e :: p in ps && e in PolicyExternal(p, nodes, externals) ==> e in PolicyExternals(ps, nodes, externals)
    ensures forall e :: e in PolicyExternals(ps, nodes, externals) ==> e in externals
  {
    if ps != [] {
      PolicyExternalsMembers(ps[..|ps| - 1], nodes, externals);
      assert ps == ps[..|ps| - 1] + [ps[|ps| - 1]];
    }
  }

  lemma SortedMembers(c: Cluster)
    ensures forall n :: n in SortedNodes(c) <==> n in c.nodes
    ensures forall e :: e in SortedExternals(c) <==> e in c.externals
    ensures forall u :: u in SortBy(c.users, UserLe) <==> u in c.users
  {
    NameOrders();
    SortMembers(c.nodes, NodeLe);
    SortMembers(c.externals, ExternalLe);
    SortMembers(c.users, UserLe);
  }

  /** Whatever the input knows by name is a cluster resource; its nodes are outbound nodes. */
  lemma KnownAreClusterResources(c: Cluster, node: Node)
    ensures KeyedByName(InputOf(c, node))
    ensures forall n :: n in KnownNodes(c, node) ==> n in c.nodes && HasRole(n, Outbound)
    ensures forall e :: e in KnownExternals(c, node) ==> e in c.externals
    ensures var m := InputOf(c, node).nodesByName; forall k :: k in m ==> m[k] in c.nodes && HasRole(m[k], Outbound)
    ensures var m := InputOf(c, node).externalsByName; forall k :: k in m ==> m[k] in c.externals
  {
    SortedMembers(c);
    var ps := AdmittedPolicies(c, node);
    FilterMembers(Peering(node), SortedNodes(c));
    FilterMembers(Discoverable(Taken(node, c.nodes), node), SortedExternals(c));
    PolicyNodesMembers(ps, SortedNodes(c), SortedExternals(c));
    PolicyExternalsMembers(ps, SortedNodes(c), SortedExternals(c));
    IndexNodesFacts(KnownNodes(c, node));
    IndexExternalsFacts(KnownExternals(c, node));
  }

  // ---------------------------------------------------------------- user group restrictions

  predicate GroupAllows(c: Cluster, u: User, target: string) {
    match GroupOf(c, u)
    case None => true
    case Some(g) => IsNodeAllowed(target, ToSet(g.allowedNodes), ToSet(g.deniedNodes))
  }

  lemma {:induction false} RestrictionSets(c: Cluster, us: seq<User>, u: User)
    requires DistinctUsers(us) && u in us
    ensures Lookup(DeniedSets(c, us), u.name) == match GroupOf(c, u) case None => {} case Some(g) => ToSet(g.deniedNodes)
    ensures Lookup(AllowedSets(c, us), u.name) == match GroupOf(c, u) case None => {} case Some(g) => ToSet(g.allowedNodes)
  {
    var front, last := us[..|us| - 1], us[|us| - 1];
    assert us == front + [last];
    if u in front {
      RestrictionSets(c, front, u);
    } else {
      UnknownUser(c, front, u.name);
    }
  }

  lemma {:induction false} UnknownUser(c: Cluster, us: seq<User>, name: string)
    requires forall u :: u in us ==> u.name != name
    ensures name !in DeniedSets(c, us) && name !in AllowedSets(c, us)
  {
    if us != [] { UnknownUser(c, us[..|us| - 1], name); }
  }

  /** The engine's per-user sets give exactly the permissions of the user's group, open when there is none. */
  lemma MayUseIsGroupAllows(c: Cluster, node: Node, u: User, target: string)
    requires WellFormed(c) && HasRole(node, Inbound) && u in c.users
    ensures u in InputOf(c, node).users
    ensures MayUse(InputOf(c, node), u, target) <==> GroupAllows(c, u, target)
  {
    SortedMembers(c);
    RestrictionSets(c, SortedUsers(c, node), u);
  }

  // ---------------------------------------------------------------- local resolution is global resolution

  ghost function GlobalTarget(c: Cluster, p: Policy): string {
    var r := Resolve(p, SortedNodes(c), SortedExternals(c));
    if r.Resolved? then r.target else ""
  }

  lemma CandidateNames(c: Cluster, p: Policy)
    ensures forall n :: n in c.nodes && SelectedNode(p)(n) ==> n.name in NodeNames(Filter(SelectedNode(p), SortedNodes(c)))
    ensures forall e :: e in c.externals && SelectedExternal(p)(e) ==> e.name in ExternalNames(Filter(SelectedExternal(p), SortedExternals(c)))
    ensures forall x :: x in NodeNames(Filter(SelectedNode(p), SortedNodes(c))) ==> exists n :: n in c.nodes && SelectedNode(p)(n) && n.name == x
    ensures forall x :: x in ExternalNames(Filter(SelectedExternal(p), SortedExternals(c))) ==> exists e :: e in c.externals && SelectedExternal(p)(e) && e.name == x
  {
    SortedMembers(c);
    var ns, es := Filter(SelectedNode(p), SortedNodes(c)), Filter(SelectedExternal(p), SortedExternals(c));
    FilterMembers(SelectedNode(p), SortedNodes(c));
    FilterMembers(SelectedExternal(p), SortedExternals(c));
    forall n | n in c.nodes && SelectedNode(p)(n) ensures n.name in NodeNames(ns) {
      var i :| 0 <= i < |ns| && ns[i] == n;
      assert NodeNames(ns)[i] == n.name;
    }
    forall e | e in c.externals && SelectedExternal(p)(e) ensures e.name in ExternalNames(es) {
      var i :| 0 <= i < |es| && es[i] == e;
      assert ExternalNames(es)[i] == e.name;
    }
    forall x | x in NodeNames(ns) ensures exists n :: n in c.nodes && SelectedNode(p)(n) && n.name == x {
      var i :| 0 <= i < |ns| && NodeNames(ns)[i] == x;
      assert ns[i] in ns;
    }
    forall x | x in ExternalNames(es) ensures exists e :: e in c.externals && SelectedExternal(p)(e) && e.name == x {
      var i :| 0 <= i < |es| && ExternalNames(es)[i] == x;
      assert es[i] in es;
    }
  }

  ghost predicate AdmittedRoute(c: Cluster, node: Node, p: Policy) {
    p in AdmittedPolicies(c, node) && p.action == ROUTE
  }

  lemma AdmittedFacts(c: Cluster, node: Node, p: Policy)
    requires p in AdmittedPolicies(c, node)
    ensures p in c.policies && HasRole(node, Inbound) && Matches(p.ingress, node.name, node.labels)
    ensures p.action == ROUTE || p.action == REJECT
    ensures p.action == ROUTE ==> GlobalTarget(c, p) != "" && Candidates(p, SortedNodes(c), SortedExternals(c)) == [GlobalTarget(c, p)]
    ensures p.action == ROUTE ==> Connected(node, GlobalTarget(c, p), SortedNodes(c), SortedExternals(c))
  {
    FilterMembers(Admission(node, SortedNodes(c), SortedExternals(c)), c.policies);
    assert Admission(node, SortedNodes(c), SortedExternals(c))(p);
  }

  /** The resource collection adds for the target of a resolved policy. */
  lemma TargetResource(c: Cluster, p: Policy)
    requires WellFormed(c) && p.action == ROUTE && GlobalTarget(c, p) != ""
    ensures forall n :: n in c.nodes && SelectedNode(p)(n) && n.name == GlobalTarget(c, p) ==> PolicyNode(p, SortedNodes(c), SortedExternals(c)) == [n]
    ensures forall e :: e in c.externals && e.name == GlobalTarget(c, p) ==> PolicyExternal(p, SortedNodes(c), SortedExternals(c)) == [e]
  {
    SortedMembers(c);
    hide SortedNodes, SortedExternals, Candidates;
  }

  lemma PolicyNodeIsIndexed(c: Cluster, node: Node, p: Policy, n: Node)
    requires WellFormed(c) && p in AdmittedPolicies(c, node) && PolicyNode(p, SortedNodes(c), SortedExternals(c)) == [n]
    ensures n.name in InputOf(c, node).nodesByName && InputOf(c, node).nodesByName[n.name] == n
  {
    KnownAreClusterResources(c, node);
    SortedMembers(c);
    hide SortedNodes, SortedExternals, AdmittedPolicies, Filter, IndexNodes, IndexExternals, Restrict, DeniedSets, AllowedSets, PolicyNodes, PolicyExternals, PolicyNode;
    var nodes, externals := SortedNodes(c), SortedExternals(c);
    assert n in PolicyNode(p, nodes, externals);
    PolicyNodesMembers(AdmittedPolicies(c, node), nodes, externals);
    IndexNodesFacts(KnownNodes(c, node));
  }

  lemma PolicyExternalIsIndexed(c: Cluster, node: Node, p: Policy, e: External)
    requires WellFormed(c) && p in AdmittedPolicies(c, node) && PolicyExternal(p, SortedNodes(c), SortedExternals(c)) == [e]
    ensures e.name in InputOf(c, node).externalsByName && InputOf(c, node).externalsByName[e.name] == e
  {
    KnownAreClusterResources(c, node);
    SortedMembers(c);
    hide SortedNodes, SortedExternals, AdmittedPolicies, Filter, IndexNodes, IndexExternals, Restrict, DeniedSets, AllowedSets, PolicyNodes, PolicyExternals, PolicyExternal;
    var nodes, externals := SortedNodes(c), SortedExternals(c);
    assert e in PolicyExternal(p, nodes, externals);
    PolicyExternalsMembers(AdmittedPolicies(c, node), nodes, externals);
    IndexExternalsFacts(KnownExternals(c, node));
  }

  /** The resource behind the target of an admitted route policy is in the input's maps. */
  lemma TargetIsKnown(c: Cluster, node: Node, p: Policy)
    requires WellFormed(c) && AdmittedRoute(c, node, p)
    ensures var t, input := GlobalTarget(c, p), InputOf(c, node);
            || (t in input.nodesByName && SelectedNode(p)(input.nodesByName[t]))
            || (t in input.externalsByName && SelectedExternal(p)(input.externalsByName[t]))
  {
    hide SortedNodes, SortedExternals, GlobalTarget, Filter, AdmittedPolicies, InputOf, PolicyNode, PolicyExternal, WellFormed;
    var t := GlobalTarget(c, p);
    var names, more := NodeNames(Filter(SelectedNode(p), SortedNodes(c))), ExternalNames(Filter(SelectedExternal(p), SortedExternals(c)));
    AdmittedFacts(c, node, p);
    CandidateNames(c, p);
    TargetResource(c, p);
    assert t in names || t in more by { assert (names + more)[0] == t; }
    if t in names {
      var n :| n in c.nodes && SelectedNode(p)(n) && n.name == t;
      PolicyNodeIsIndexed(c, node, p, n);
    } else {
      var e :| e in c.externals && SelectedExternal(p)(e) && e.name == t;
      PolicyExternalIsIndexed(c, node, p, e);
    }
  }

  lemma LocalMatchesAreCandidates(c: Cluster, node: Node, p: Policy)
    ensures forall x :: x in NodeMatches(InputOf(c, node), p) ==> x in NodeNames(Filter(SelectedNode(p), SortedNodes(c)))
    ensures forall x :: x in ExternalMatches(InputOf(c, node), p) ==> x in ExternalNames(Filter(SelectedExternal(p), SortedExternals(c)))
  {
    KnownAreClusterResources(c, node);
    CandidateNames(c, p);
    var input := InputOf(c, node);
    forall x | x in NodeMatches(input, p) ensures x in NodeNames(Filter(SelectedNode(p), SortedNodes(c))) {
      assert SelectedNode(p)(input.nodesByName[x]);
    }
    forall x | x in ExternalMatches(input, p) ensures x in ExternalNames(Filter(SelectedExternal(p), SortedExternals(c))) {
      assert SelectedExternal(p)(input.externalsByName[x]);
    }
  }

  lemma OneCandidate(ns: set<string>, es: set<string>, names: seq<string>, more: seq<string>, t: string)
    requires names + more == [t] && t in ns + es
    requires (forall x :: x in ns ==> x in names) && (forall x :: x in es ==> x in more)
    ensures |ns| + |es| == 1 && Pick(ns + es) == t
  {
    assert |names| + |more| == 1;
    if names == [] {
      assert more == [t];
      assert ns == {} && es == {t};
    } else {
      assert more == [] && names == [t];
      assert ns == {t} && es == {};
    }
    SingletonUnion(ns, es, t);
  }

  /** Resolving the selector over the filtered maps gives the unique cluster-wide target. */
  lemma LocalResolutionIsGlobal(c: Cluster, node: Node, p: Policy)
    requires WellFormed(c) && AdmittedRoute(c, node, p)
    ensures LocalEgress(InputOf(c, node), p) == GlobalTarget(c, p)
  {
    hide InputOf, SortedNodes, SortedExternals, GlobalTarget, Filter, AdmittedPolicies;
    var t, input := GlobalTarget(c, p), InputOf(c, node);
    var names, more := NodeNames(Filter(SelectedNode(p), SortedNodes(c))), ExternalNames(Filter(SelectedExternal(p), SortedExternals(c)));
    AdmittedFacts(c, node, p);
    TargetIsKnown(c, node, p);
    KnownAreClusterResources(c, node);
    LocalMatchesAreCandidates(c, node, p);
    OneCandidate(NodeMatches(input, p), ExternalMatches(input, p), names, more, t);
  }

  /** The builders use the cluster-wide target exactly when the recorded one is absent or fresh. */
  lemma EgressIsGlobalIffFresh(c: Cluster, node: Node, p: Policy)
    requires WellFormed(c) && AdmittedRoute(c, node, p)
    ensures Egress(InputOf(c, node), p) == GlobalTarget(c, p) <==> p.resolvedEgress == "" || p.resolvedEgress == GlobalTarget(c, p)
  {
    LocalResolutionIsGlobal(c, node, p);
    AdmittedFacts(c, node, p);
  }

  /** Every admitted route policy's recorded target is absent or current. */
  ghost predicate FreshStatuses(c: Cluster, node: Node) {
    forall p :: AdmittedRoute(c, node, p) ==> p.resolvedEgress == "" || p.resolvedEgress == GlobalTarget(c, p)
  }
}
