/** Policies steer traffic among the targets a node already has; they never add one. */
module Confinement {

  import opened Ordering
  import opened Resources
  import opened Engine
  import opened Routing
  import opened Controller
  import opened Collected
  import opened Closure

  // ---------------------------------------------------------------- where known resources come from

  lemma {:induction false} PolicyNodeOrigin(ps: seq<Policy>, nodes: seq<Node>, externals: seq<External>, n: Node)
    requires n in PolicyNodes(ps, nodes, externals)
    ensures exists p :: p in ps && n in PolicyNode(p, nodes, externals)
  {
    hide PolicyNode;
    var front, last := ps[..|ps| - 1], ps[|ps| - 1];
    assert ps == front + [last];
    if n in PolicyNodes(front, nodes, externals) {
      PolicyNodeOrigin(front, nodes, externals, n);
      var p :| p in front && n in PolicyNode(p, nodes, externals);
      assert p in ps;
    } else {
      assert last in ps;
    }
  }

  lemma {:induction false} PolicyExternalOrigin(ps: seq<Policy>, nodes: seq<Node>, externals: seq<External>, e: External)
    requires e in PolicyExternals(ps, nodes, externals)
    ensures exists p :: p in ps && e in PolicyExternal(p, nodes, externals)
  {
    hide PolicyExternal;
    var front, last := ps[..|ps| - 1], ps[|ps| - 1];
    assert ps == front + [last];
    if e in PolicyExternals(front, nodes, externals) {
      PolicyExternalOrigin(front, nodes, externals, e);
      var p :| p in front && e in PolicyExternal(p, nodes, externals);
      assert p in ps;
    } else {
      assert last in ps;
    }
  }

  /** Every node an input knows is a discovered peer, or the node itself when it is an outbound node. */
  lemma KnownNodeIsPeerOrSelf(c: Cluster, node: Node, n: Node)
    requires WellFormed(c) && node in c.nodes && n in KnownNodes(c, node)
    ensures n in InputOf(c, node).outboundNodes || (n == node && HasRole(node, Outbound))
  {
    var nodes, externals, ps := SortedNodes(c), SortedExternals(c), AdmittedPolicies(c, node);
    KnownAreClusterResources(c, node);
    if n !in InputOf(c, node).outboundNodes {
      PolicyNodeOrigin(ps, nodes, externals, n);
      var p :| p in ps && n in PolicyNode(p, nodes, externals);
      AdmittedFacts(c, node, p);
      SortedMembers(c);
      FilterMembers(Peering(node), nodes);
      assert Peering(node)(n) <==> PeerOf(node, n);
    }
  }

  lemma ConnectedExternalIsDiscovered(c: Cluster, node: Node, e: External)
    requires WellFormed(c) && node in c.nodes && e in c.externals
    requires e.region != "" && e.region == node.region && PairAllowed(node, e.name, e.allowedInbounds)
    ensures e in InputOf(c, node).externals
  {
    SortedMembers(c);
    FilterMembers(Discoverable(Taken(node, c.nodes), node), SortedExternals(c));
    assert Discoverable(Taken(node, c.nodes), node)(e);
  }

  lemma KnownExternalIsDiscovered(c: Cluster, node: Node, e: External)
    requires WellFormed(c) && node in c.nodes && e in KnownExternals(c, node)
    ensures e in InputOf(c, node).externals
  {
    var nodes, externals, ps := SortedNodes(c), SortedExternals(c), AdmittedPolicies(c, node);
    if e !in InputOf(c, node).externals {
      PolicyExternalOrigin(ps, nodes, externals, e);
      var p :| p in ps && e in PolicyExternal(p, nodes, externals);
      AdmittedFacts(c, node, p);
      SortedMembers(c);
      ConnectedExternalIsDiscovered(c, node, e);
    }
  }

  // ---------------------------------------------------------------- policies add no target

  ghost predicate Autodiscovered(input: Input, name: string) {
    || name in PeerNames(input.outboundNodes)
    || (HasRole(input.node, Outbound) && name == input.node.name)
    || name in ExternalNames(UsableExternals(input, input.externals))
  }

  lemma {:induction false} UsableExternalListed(input: Input, es: seq<External>, e: External)
    requires e in es && ExternalUsable(input, e) && DistinctExternals(es)
    ensures e in UsableExternals(input, es)
  {
    var front, last := es[..|es| - 1], es[|es| - 1];
    assert es == front + [last];
    if e in front {
      UsableExternalListed(input, front, e);
    } else {
      forall x | x in front ensures x.name != e.name {}
    }
  }

  /** Whatever name a policy carries, current or stale, it is usable only if the node discovers it anyway. */
  lemma UsableIsAutodiscovered(c: Cluster, node: Node, name: string)
    requires WellFormed(c) && node in c.nodes && Usable(InputOf(c, node), name)
    ensures Autodiscovered(InputOf(c, node), name)
  {
    var input := InputOf(c, node);
    KnownAreClusterResources(c, node);
    if name in input.nodesByName {
      IndexNodesFacts(KnownNodes(c, node));
      KnownNodeIsPeerOrSelf(c, node, input.nodesByName[name]);
    } else {
      var e := input.externalsByName[name];
      IndexExternalsFacts(KnownExternals(c, node));
      KnownExternalIsDiscovered(c, node, e);
      ExternalUnshadowed(c, node, e);
      FilterMembers(Discoverable(Taken(node, c.nodes), node), SortedExternals(c));
      SortedMembers(c);
      UsableExternalListed(input, input.externals, e);
      ExternalNamesMembers(UsableExternals(input, input.externals), name);
    }
  }

  lemma ExternalUnshadowed(c: Cluster, node: Node, e: External)
    requires WellFormed(c) && node in c.nodes && e in c.externals
    ensures !CollidesWithNode(InputOf(c, node), e.name)
  {
    KnownAreClusterResources(c, node);
    SortedMembers(c);
    FilterMembers(Peering(node), SortedNodes(c));
  }

  /** The provisioned targets are the discovered ones: no policy brings in a target of its own. */
  lemma PoliciesAddNoTarget(c: Cluster, node: Node, name: string)
    requires WellFormed(c) && node in c.nodes && HasRole(node, Inbound)
    ensures name in Targets(InputOf(c, node), IsSelfExit(node)) <==> Autodiscovered(InputOf(c, node), name)
  {
    var input := InputOf(c, node);
    TargetMembers(input, IsSelfExit(node));
    RoutesToPolicyTarget(input, name);
    if name in PolicyTargets(input, input.policies) { UsableIsAutodiscovered(c, node, name); }
  }

  /** A target the node may use: itself, or an outbound of its region that passes both whitelists. */
  ghost predicate Permitted(c: Cluster, node: Node, name: string) {
    || (name == node.name && HasRole(node, Outbound))
    || (exists n :: n in c.nodes && n.name == name && n.region == node.region && HasRole(n, Outbound) && PairAllowed(node, name, n.allowedInbounds))
    || (exists e :: e in c.externals && e.name == name && e.region != "" && e.region == node.region && PairAllowed(node, name, e.allowedInbounds))
  }

  lemma {:induction false} UsableExternalsSubset(input: Input, es: seq<External>)
    ensures forall e :: e in UsableExternals(input, es) ==> e in es && ExternalUsable(input, e)
  {
    if es != [] {
      UsableExternalsSubset(input, es[..|es| - 1]);
      assert es == es[..|es| - 1] + [es[|es| - 1]];
    }
  }

  lemma AutodiscoveredIsPermitted(c: Cluster, node: Node, name: string)
    requires WellFormed(c) && node in c.nodes && Autodiscovered(InputOf(c, node), name)
    ensures Permitted(c, node, name)
  {
    var input := InputOf(c, node);
    SortedMembers(c);
    FilterMembers(Peering(node), SortedNodes(c));
    FilterMembers(Discoverable(Taken(node, c.nodes), node), SortedExternals(c));
    if name in PeerNames(input.outboundNodes) {
      var n :| n in input.outboundNodes && n.relayPort != 0 && n.name == name;
      assert Peering(node)(n);
    } else if name in ExternalNames(UsableExternals(input, input.externals)) {
      ExternalNamesMembers(UsableExternals(input, input.externals), name);
      UsableExternalsSubset(input, input.externals);
      var e :| e in input.externals && e.name == name;
      assert Discoverable(Taken(node, c.nodes), node)(e);
    }
  }

  /** Whatever the policies and whatever the destination, a provisioned user's traffic is rejected or leaves by
      an outbound the region and both whitelists permit the node. */
  lemma TrafficIsConfined(c: Cluster, node: Node, u: User, n: string, q: Request)
    requires WellFormed(c) && node in c.nodes && HashFreeUsers(c.users) && Provisioned(InputOf(c, node), u, n)
    requires q.inbound == InboundTag(node) && q.identity == VirtualUser(u.name, n)
    ensures var d := Evaluate(ConfigOf(InputOf(c, node)), q);
            d == Rejected || exists t :: d == Via(OutboundTag(t)) && Permitted(c, node, t)
  {
    var input := InputOf(c, node);
    SortedMembers(c);
    FirstMatchRefinement(input, u, n, q);
    PoliciesAddNoTarget(c, node, n);
    AutodiscoveredIsPermitted(c, node, n);
    ReferenceTargets(input, SortedPolicies(input), n, q);
    var d := Reference(input, SortedPolicies(input), n, q);
    if d != Rejected && d != Via(OutboundTag(n)) {
      var t :| d == Via(OutboundTag(t)) && Usable(input, t);
      UsableIsAutodiscovered(c, node, t);
      AutodiscoveredIsPermitted(c, node, t);
    }
  }

  lemma {:induction false} ReferenceTargets(input: Input, ps: seq<Policy>, n: string, q: Request)
    ensures var d := Reference(input, ps, n, q);
            d == Rejected || d == Via(OutboundTag(n)) || exists t :: d == Via(OutboundTag(t)) && Usable(input, t)
  {
    if ps != [] { ReferenceTargets(input, ps[1..], n, q); }
  }

  // ---------------------------------------------------------------- traffic statistics

  /** The targets for which counters are requested; policy targets are not asked about. */
  ghost function StatsTargets(input: Input): seq<string> {
    var peers := Extend([], PeerNames(input.outboundNodes));
    var named := if IsSelfExit(input.node) then AddNew(peers, input.node.name) else peers;
    Extend(named, ExternalNames(UsableExternals(input, input.externals)))
  }

  ghost function StatsUsers(input: Input): seq<string> {
    SortedSet(VirtualUsers(input.users, StatsTargets(input)))
  }

  ghost function VirtualUsers(users: seq<User>, targets: seq<string>): set<string> {
    set u, t | u in users && t in targets :: VirtualUser(u.name, t)
  }

  ghost function VirtualUsersOf(users: seq<User>, target: string): set<string> {
    set u | u in users :: VirtualUser(u.name, target)
  }

  lemma VirtualUsersSnoc(users: seq<User>, targets: seq<string>, t: string)
    ensures VirtualUsers(users, targets + [t]) == VirtualUsers(users, targets) + VirtualUsersOf(users, t)
  {
    var l, r := VirtualUsers(users, targets + [t]), VirtualUsers(users, targets) + VirtualUsersOf(users, t);
    forall x ensures x in l <==> x in r {
      if x in l {
        var u, s :| u in users && s in targets + [t] && x == VirtualUser(u.name, s);
        assert s in targets || s == t;
      }
      if x in VirtualUsersOf(users, t) {
        var u :| u in users && x == VirtualUser(u.name, t);
        assert t in targets + [t];
      }
      if x in VirtualUsers(users, targets) {
        var u, s :| u in users && s in targets && x == VirtualUser(u.name, s);
        assert s in targets + [t];
      }
    }
  }

  method AddVirtualUsers(users: seq<User>, target: string, names0: set<string>) returns (names: set<string>)
    ensures names == names0 + VirtualUsersOf(users, target)
  {
    names := names0;
    for j := 0 to |users|
      invariant names == names0 + VirtualUsersOf(users[..j], target)
    {
      assert users[..j + 1] == users[..j] + [users[j]];
      names := names + {VirtualUser(users[j].name, target)};
    }
    assert users[..|users|] == users;
  }

  method CrossUsers(users: seq<User>, targets: seq<string>) returns (names: set<string>)
    ensures names == VirtualUsers(users, targets)
  {
    names := {};
    for i := 0 to |targets|
      invariant names == VirtualUsers(users, targets[..i])
    {
      names := AddVirtualUsers(users, targets[i], names);
      assert targets[..i + 1] == targets[..i] + [targets[i]];
      VirtualUsersSnoc(users, targets[..i], targets[i]);
    }
    assert targets[..|targets|] == targets;
  }

  method BuildStatsUsers(input: Input) returns (users: seq<string>)
    ensures users == StatsUsers(input)
  {
    var targets := AddPeers(input);
    if IsSelfExit(input.node) && input.node.name !in targets {
      targets := targets + [input.node.name];
    }
    var es := ResolveExternalOutbounds(input);
    targets := AddExternals(targets, es);
    var names := CrossUsers(input.users, targets);
    var listed := IterationOrder(names);
    SortIsSortedSet(listed);
    assert (set x | x in listed) == names;
    users := SortBy(listed, StrLe);
  }

  /** Although policy targets are not asked about, every provisioned virtual user is counted. */
  lemma StatsCoverProvisioned(c: Cluster, node: Node, u: User, n: string)
    requires WellFormed(c) && node in c.nodes && Provisioned(InputOf(c, node), u, n)
    ensures VirtualUser(u.name, n) in StatsUsers(InputOf(c, node))
  {
    var input := InputOf(c, node);
    PoliciesAddNoTarget(c, node, n);
    var peers := PeerNames(input.outboundNodes);
    ExtendMembers([], peers);
    var named := if IsSelfExit(node) then AddNew(Extend([], peers), node.name) else Extend([], peers);
    ExtendMembers(named, ExternalNames(UsableExternals(input, input.externals)));
    assert n in StatsTargets(input);
  }

  lemma StatsTargetMembers(input: Input, n: string)
    ensures n in StatsTargets(input) <==> n in PeerNames(input.outboundNodes) || (IsSelfExit(input.node) && n == input.node.name)
                                          || n in ExternalNames(UsableExternals(input, input.externals))
  {
    var peers := PeerNames(input.outboundNodes);
    ExtendMembers([], peers);
    var named := if IsSelfExit(input.node) then AddNew(Extend([], peers), input.node.name) else Extend([], peers);
    ExtendMembers(named, ExternalNames(UsableExternals(input, input.externals)));
    hide PeerNames, ExternalNames, UsableExternals, Extend;
  }
}
