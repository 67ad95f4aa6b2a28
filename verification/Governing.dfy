/** Collection and compilation against the cluster: which policies govern a node, whom it serves, and what it decides. */
module Governing {

  import opened Ordering
  import opened Resources
  import opened Intent
  import opened Engine
  import opened Routing
  import opened Controller
  import opened Collected
  import opened Closure
  import opened Confinement
  import opened Deciding
  import opened Agreement

  // ---------------------------------------------------------------- reading the resources

  lemma MatchesIsPicks(s: Selector, name: string, labels: Labels)
    ensures Matches(s, name, labels) <==> Picks(s, name, labels)
  {}

  lemma RequiredIsFurnished(c: Cluster, e: External)
    ensures HasRequiredCreds(e, CredsOf(c.externalCreds, e.name)) <==> Furnished(c, e)
  {
    RequiredIsComplete(e, c.externalCreds);
  }

  lemma SelectsIsCandidate(c: Cluster, p: Policy, name: string)
    ensures Selects(c, p, name) <==> name in Candidates(p, SortedNodes(c), SortedExternals(c))
  {
    hide SortedNodes, SortedExternals, Filter;
    CandidateNames(c, p);
    forall n: Node ensures SelectedNode(p)(n) <==> Outbound in n.roles && Picks(p.egress, n.name, n.labels) {
      MatchesIsPicks(p.egress, n.name, n.labels);
    }
    forall e: External ensures SelectedExternal(p)(e) <==> Picks(p.egress, e.name, e.labels) {
      MatchesIsPicks(p.egress, e.name, e.labels);
    }
    hide SelectedNode, SelectedExternal, Picks;
  }

  lemma CandidatesOnce(c: Cluster, p: Policy)
    requires WellFormed(c)
    ensures NoDup(Candidates(p, SortedNodes(c), SortedExternals(c)))
  {
    var ns, es := Filter(SelectedNode(p), SortedNodes(c)), Filter(SelectedExternal(p), SortedExternals(c));
    NameOrders();
    SortBySorts(c.nodes, NodeLe);
    SortBySorts(c.externals, ExternalLe);
    PermutedNoDup(c.nodes, SortedNodes(c));
    PermutedNoDup(c.externals, SortedExternals(c));
    SortedMembers(c);
    FilterNoDup(SelectedNode(p), SortedNodes(c));
    FilterNoDup(SelectedExternal(p), SortedExternals(c));
    FilterMembers(SelectedNode(p), SortedNodes(c));
    FilterMembers(SelectedExternal(p), SortedExternals(c));
    hide SortedNodes, SortedExternals, Filter, SelectedNode, SelectedExternal;
    var names, more := NodeNames(ns), ExternalNames(es);
    forall i, j | 0 <= i < j < |names + more| ensures (names + more)[i] != (names + more)[j] {
      if j < |names| {
        assert ns[i] in ns && ns[j] in ns;
      } else if i >= |names| {
        assert es[i - |ns|] in es && es[j - |ns|] in es;
      } else {
        assert ns[i] in ns && es[j - |ns|] in es;
      }
    }
  }

  lemma SoleIsOnly(c: Cluster, p: Policy, t: string)
    requires WellFormed(c)
    ensures Candidates(p, SortedNodes(c), SortedExternals(c)) == [t] <==> Sole(c, p, t)
  {
    var names := Candidates(p, SortedNodes(c), SortedExternals(c));
    CandidatesOnce(c, p);
    hide Candidates, Selects, SortedNodes, SortedExternals;
    forall x ensures Selects(c, p, x) <==> x in names { SelectsIsCandidate(c, p, x); }
    if Sole(c, p, t) {
      NoDupCardinality(names, {t});
      assert names == [names[0]];
    }
  }

  lemma ConnectedIsNear(c: Cluster, i: Node, t: string)
    requires WellFormed(c) && i in c.nodes
    ensures Connected(i, t, SortedNodes(c), SortedExternals(c)) <==> Near(c, i, t)
  {
    SortedMembers(c);
    hide SortedNodes, SortedExternals;
    var n, e := FindNode(SortedNodes(c), t), FindExternal(SortedExternals(c), t);
    if n.Some? {
      assert n.value in c.nodes && n.value.name == t;
      assert forall m :: NearNode(c, i, m) && m.name == t ==> m == n.value;
      assert forall x :: NearExternal(c, i, x) ==> x.name != t;
    } else {
      assert !exists m :: NearNode(c, i, m) && m.name == t;
      if e.Some? { assert forall x :: NearExternal(c, i, x) && x.name == t ==> x == e.value; }
    }
  }

  /** Exactly the policies that govern a node are collected for it. */
  lemma CollectedIffGoverns(c: Cluster, i: Node, p: Policy)
    requires WellFormed(c) && i in c.nodes
    ensures p in InputOf(c, i).policies <==> Governs(c, i, p)
  {
    FilterMembers(Admission(i, SortedNodes(c), SortedExternals(c)), c.policies);
    assert p in InputOf(c, i).policies <==> p in c.policies && Admits(i, SortedNodes(c), SortedExternals(c), p);
    if p in c.policies { AdmitsIffGoverns(c, i, p); }
  }

  lemma AdmitsIffGoverns(c: Cluster, i: Node, p: Policy)
    requires WellFormed(c) && i in c.nodes && p in c.policies
    ensures Admits(i, SortedNodes(c), SortedExternals(c), p) <==> Governs(c, i, p)
  {
    var names := Candidates(p, SortedNodes(c), SortedExternals(c));
    MatchesIsPicks(p.ingress, i.name, i.labels);
    ValidIsSound(p);
    forall t ensures names == [t] <==> Sole(c, p, t) { SoleIsOnly(c, p, t); }
    forall t ensures Connected(i, t, SortedNodes(c), SortedExternals(c)) <==> Near(c, i, t) { ConnectedIsNear(c, i, t); }
    hide Candidates, Sole, Connected, Near, SortedNodes, SortedExternals, Matches, Picks, CriteriaValid, Sound;
    if |names| == 1 { assert names == [names[0]]; }
  }

  // ---------------------------------------------------------------- whom a node serves

  lemma PeersAreNear(c: Cluster, i: Node, name: string)
    requires WellFormed(c)
    ensures name in PeerNames(InputOf(c, i).outboundNodes) <==> exists n :: NearNode(c, i, n) && n.name == name && n.relayPort > 0
  {
    SortedMembers(c);
    FilterMembers(Peering(i), SortedNodes(c));
    assert InputOf(c, i).outboundNodes == Filter(Peering(i), SortedNodes(c));
    hide InputOf, SortedNodes, Filter, PeerNames;
    forall n: Node ensures n in InputOf(c, i).outboundNodes <==> NearNode(c, i, n) { assert Peering(i)(n) <==> PeerOf(i, n); }
  }

  lemma InputExternals(c: Cluster, i: Node)
    ensures InputOf(c, i).externals == Filter(Discoverable(Taken(i, c.nodes), i), SortedExternals(c))
  {}

  lemma ExternalsAreNear(c: Cluster, i: Node, e: External)
    requires WellFormed(c) && i in c.nodes
    ensures e in InputOf(c, i).externals <==> NearExternal(c, i, e)
  {
    InputExternals(c, i);
    hide InputOf, SortedExternals, SortedNodes, Filter;
    SortedMembers(c);
    FilterMembers(Discoverable(Taken(i, c.nodes), i), SortedExternals(c));
    assert Discoverable(Taken(i, c.nodes), i)(e) <==> Discovers(Taken(i, c.nodes), i, e);
  }

  lemma UsableAreFurnished(c: Cluster, i: Node, name: string)
    requires WellFormed(c) && i in c.nodes
    ensures name in ExternalNames(UsableExternals(InputOf(c, i), InputOf(c, i).externals))
            <==> exists e :: NearExternal(c, i, e) && e.name == name && Furnished(c, e)
  {
    var input := InputOf(c, i);
    hide InputOf, ExternalNames, UsableExternals, Furnished, HasRequiredCreds, WellFormed, CredsOf;
    ExternalNamesMembers(UsableExternals(input, input.externals), name);
    UsableExternalsSubset(input, input.externals);
    forall e | e in input.externals ensures NearExternal(c, i, e) && (ExternalUsable(input, e) <==> Furnished(c, e)) {
      ExternalsAreNear(c, i, e);
      ExternalUnshadowed(c, i, e);
      DiscoveredCredentials(c, i, e);
      RequiredIsFurnished(c, e);
    }
    if e :| NearExternal(c, i, e) && e.name == name && Furnished(c, e) {
      ExternalsAreNear(c, i, e);
      DiscoveredCredentials(c, i, e);
      UsableExternalListed(input, input.externals, e);
    }
  }

  /** The targets of an inbound node, off the cluster. */
  lemma TargetsAreReached(c: Cluster, i: Node, name: string)
    requires WellFormed(c) && i in c.nodes && Inbound in i.roles
    ensures name in Targets(InputOf(c, i), IsSelfExit(i)) <==> Reaches(c, i, name)
  {
    assert InputOf(c, i).node == i;
    PoliciesAddNoTarget(c, i, name);
    PeersAreNear(c, i, name);
    UsableAreFurnished(c, i, name);
    hide InputOf, Targets, PeerNames, ExternalNames, UsableExternals, NearNode, NearExternal, Furnished;
  }

  lemma MayUseIsGrants(c: Cluster, i: Node, u: User, name: string)
    requires WellFormed(c) && Inbound in i.roles && u in c.users
    ensures MayUse(InputOf(c, i), u, name) <==> Grants(c, u, name)
  {
    MayUseIsGroupAllows(c, i, u, name);
    hide InputOf, MayUse;
    if u.groupRef in c.groups {
      var g := c.groups[u.groupRef];
      assert ToSet(g.allowedNodes) == {} <==> g.allowedNodes == [] by {
        if g.allowedNodes != [] { assert g.allowedNodes[0] in ToSet(g.allowedNodes); }
      }
    }
  }

  lemma UsersAreCollected(c: Cluster, i: Node, u: User)
    requires Inbound in i.roles
    ensures u in InputOf(c, i).users <==> u in c.users
  {
    SortedMembers(c);
  }

  /** Exactly the users whose group grants a target the node reaches are provisioned for it. */
  lemma ProvisionedIffGranted(c: Cluster, i: Node, u: User, name: string)
    requires WellFormed(c) && i in c.nodes
    ensures Provisioned(InputOf(c, i), u, name) <==> Inbound in i.roles && u in c.users && Reaches(c, i, name) && Grants(c, u, name)
  {
    assert InputOf(c, i).node == i;
    hide InputOf, Targets, Relays, MayUse, Reaches, Grants;
    if Inbound in i.roles {
      TargetsAreReached(c, i, name);
      UsersAreCollected(c, i, u);
      if u in c.users { MayUseIsGrants(c, i, u, name); }
      if name in Targets(InputOf(c, i), IsSelfExit(i)) { TargetsMeanRelays(InputOf(c, i), name); }
    }
  }

  // ---------------------------------------------------------------- what a node decides

  lemma KnownCredentials(c: Cluster, i: Node, t: string)
    requires t in InputOf(c, i).externalsByName
    ensures var e := InputOf(c, i).externalsByName[t];
            e.name == t && CredsOf(InputOf(c, i).externalCreds, t) == CredsOf(c.externalCreds, t)
  {
    IndexExternalsFacts(KnownExternals(c, i));
    ExternalNamesMembers(KnownExternals(c, i), t);
  }

  /** The target of a policy collected for the node is usable exactly when the cluster says it works. */
  lemma UsableIsWorks(c: Cluster, i: Node, p: Policy, t: string)
    requires WellFormed(c) && i in c.nodes && AdmittedRoute(c, i, p) && GlobalTarget(c, p) == t
    ensures Usable(InputOf(c, i), t) <==> Works(c, i, t)
  {
    var input := InputOf(c, i);
    AdmittedFacts(c, i, p);
    TargetIsKnown(c, i, p);
    KnownAreClusterResources(c, i);
    ConnectedIsNear(c, i, t);
    hide InputOf, GlobalTarget, AdmittedRoute, Furnished, HasRequiredCreds, CredsOf, SortedNodes, SortedExternals, Connected, KnownNodes, KnownExternals;
    if t in input.nodesByName {
      NodeWorks(c, i, input.nodesByName[t], t);
    } else {
      KnownCredentials(c, i, t);
      RequiredIsFurnished(c, input.externalsByName[t]);
      ExternalWorks(c, i, input.externalsByName[t], t);
    }
  }

  lemma NodeWorks(c: Cluster, i: Node, n: Node, t: string)
    requires WellFormed(c) && i in c.nodes && n in c.nodes && n.name == t && Outbound in n.roles && Near(c, i, t)
    ensures Works(c, i, t) <==> n.relayPort > 0
  {
    assert forall m :: NearNode(c, i, m) && m.name == t ==> m == n;
    assert forall e :: NearExternal(c, i, e) ==> e.name != t;
  }

  lemma ExternalWorks(c: Cluster, i: Node, e: External, t: string)
    requires WellFormed(c) && i in c.nodes && e in c.externals && e.name == t && Near(c, i, t)
    ensures Works(c, i, t) <==> Furnished(c, e)
  {
    hide Furnished;
    assert forall m :: NearNode(c, i, m) ==> m.name != t;
    assert forall x :: NearExternal(c, i, x) && x.name == t ==> x == e;
  }

  /** A policy decides, for traffic of the node's users to n, off the cluster. */
  ghost predicate Rules(c: Cluster, i: Node, p: Policy, n: string, q: Request) {
    && Governs(c, i, p)
    && (if p.action == "reject" then Hits(p.criteria, q)
        else exists t :: Sole(c, p, t) && Works(c, i, t) && (Hits(p.criteria, q) || (p.fallbackAction == "reject" && t == n)))
  }

  ghost predicate RulesFirst(c: Cluster, i: Node, p: Policy, n: string, q: Request) {
    Rules(c, i, p, n, q) && forall r :: Rules(c, i, r, n, q) && r != p ==> Precedes(p, r)
  }

  /** Recorded targets are absent or current. */
  ghost predicate Current(c: Cluster, i: Node) {
    forall p, t :: Governs(c, i, p) && p.action == "route" && Sole(c, p, t) ==> p.resolvedEgress == "" || p.resolvedEgress == t
  }

  lemma GoverningTarget(c: Cluster, i: Node, p: Policy, t: string)
    requires WellFormed(c) && i in c.nodes && Governs(c, i, p) && p.action == "route"
    ensures AdmittedRoute(c, i, p) && (Sole(c, p, t) <==> GlobalTarget(c, p) == t)
  {
    CollectedIffGoverns(c, i, p);
    assert InputOf(c, i).policies == AdmittedPolicies(c, i);
    AdmittedFacts(c, i, p);
    SoleIsOnly(c, p, t);
  }

  lemma GoverningEgress(c: Cluster, i: Node, p: Policy, t: string)
    requires WellFormed(c) && i in c.nodes && Governs(c, i, p) && p.action == "route" && Current(c, i) && Sole(c, p, t)
    ensures Egress(InputOf(c, i), p) == t && (Usable(InputOf(c, i), t) <==> Works(c, i, t))
  {
    hide InputOf, Governs, Sole, GlobalTarget, AdmittedRoute, Usable, Works, Egress;
    GoverningTarget(c, i, p, t);
    EgressIsGlobalIffFresh(c, i, p);
    UsableIsWorks(c, i, p, t);
  }

  lemma GovernsHasTarget(c: Cluster, i: Node, p: Policy)
    requires Governs(c, i, p)
    ensures p.action == "reject" || (p.action == "route" && exists t :: Sole(c, p, t))
  {}

  lemma DecidesIffRules(c: Cluster, i: Node, p: Policy, n: string, q: Request)
    requires WellFormed(c) && i in c.nodes && Current(c, i)
    ensures Decides(InputOf(c, i), p, n, q) <==> Rules(c, i, p, n, q)
    ensures Rules(c, i, p, n, q) && p.action == "route" ==> forall t :: Sole(c, p, t) ==> Egress(InputOf(c, i), p) == t
  {
    hide InputOf, Governs, Sole, Usable, Works, Egress, Hits;
    CollectedIffGoverns(c, i, p);
    if Governs(c, i, p) {
      GovernsHasTarget(c, i, p);
      if p.action == "route" {
        forall t | Sole(c, p, t) ensures Egress(InputOf(c, i), p) == t && (Usable(InputOf(c, i), t) <==> Works(c, i, t)) {
          GoverningEgress(c, i, p, t);
        }
      }
    }
  }

  /** The decision of a node's config for its provisioned users, off the cluster: among the policies that govern the node
      and hit the destination or guard n, the one of least priority and name rejects or sends to its sole target; without
      one, traffic leaves by outbound-n. */
  lemma ClusterDecides(c: Cluster, i: Node, u: User, n: string, q: Request)
    requires WellFormed(c) && i in c.nodes && Current(c, i) && HashFreeUsers(c.users)
    requires Inbound in i.roles && u in c.users && Reaches(c, i, n) && Grants(c, u, n)
    requires q.inbound == InboundTag(i) && q.identity == VirtualUser(u.name, n)
    ensures var d := Evaluate(ConfigOf(InputOf(c, i)), q);
            && ((forall p :: !Rules(c, i, p, n, q)) ==> d == Via(OutboundTag(n)))
            && ((exists p :: Rules(c, i, p, n, q)) ==> exists p :: RulesFirst(c, i, p, n, q))
            && (forall p :: RulesFirst(c, i, p, n, q) ==>
                  if p.action == "reject" || !Hits(p.criteria, q) then d == Rejected
                  else exists t :: Sole(c, p, t) && d == Via(OutboundTag(t)))
  {
    hide InputOf, ConfigOf, Evaluate, Reaches, Grants, Rules, RulesFirst, Decides, DecidesFirst, EffectOf, Current, Sole, Hits;
    InputShape(c, i);
    ProvisionedIffGranted(c, i, u, n);
    LeastPolicyDecides(InputOf(c, i), u, n, q);
    FirstsAgree(c, i, n, q);
    forall p: Policy | RulesFirst(c, i, p, n, q)
      ensures if p.action == "reject" || !Hits(p.criteria, q) then EffectOf(InputOf(c, i), p, q) == Rejected
              else exists t :: Sole(c, p, t) && EffectOf(InputOf(c, i), p, q) == Via(OutboundTag(t))
    {
      RulesEffect(c, i, p, n, q);
    }
  }

  lemma FirstsAgree(c: Cluster, i: Node, n: string, q: Request)
    requires WellFormed(c) && i in c.nodes && Current(c, i)
    ensures forall p :: Decides(InputOf(c, i), p, n, q) <==> Rules(c, i, p, n, q)
    ensures forall p :: DecidesFirst(InputOf(c, i), p, n, q) <==> RulesFirst(c, i, p, n, q)
    ensures forall p :: RulesFirst(c, i, p, n, q) ==> Rules(c, i, p, n, q)
  {
    hide InputOf, Rules, Decides, Current, Precedes;
    forall p: Policy ensures Decides(InputOf(c, i), p, n, q) <==> Rules(c, i, p, n, q) { DecidesIffRules(c, i, p, n, q); }
  }

  lemma RulesEffect(c: Cluster, i: Node, p: Policy, n: string, q: Request)
    requires WellFormed(c) && i in c.nodes && Current(c, i) && Rules(c, i, p, n, q)
    ensures if p.action == "reject" || !Hits(p.criteria, q) then EffectOf(InputOf(c, i), p, q) == Rejected
            else exists t :: Sole(c, p, t) && EffectOf(InputOf(c, i), p, q) == Via(OutboundTag(t))
  {
    DecidesIffRules(c, i, p, n, q);
    hide InputOf, Current, Governs, Egress, Sole, Hits, Decides;
    if p.action != "reject" && Hits(p.criteria, q) {
      RulesTarget(c, i, p, n, q);
      var t :| Sole(c, p, t);
      assert Egress(InputOf(c, i), p) == t;
    }
  }

  lemma RulesTarget(c: Cluster, i: Node, p: Policy, n: string, q: Request)
    requires Rules(c, i, p, n, q) && p.action != "reject"
    ensures p.action == "route" && exists t :: Sole(c, p, t)
  {
    hide Sole, Works;
    GovernsHasTarget(c, i, p);
  }

  lemma InputShape(c: Cluster, i: Node)
    requires WellFormed(c)
    ensures InputOf(c, i).node == i && DistinctPolicies(InputOf(c, i).policies)
    ensures HashFreeUsers(c.users) ==> HashFreeUsers(InputOf(c, i).users)
  {
    SortedMembers(c);
    FilterMembers(Admission(i, SortedNodes(c), SortedExternals(c)), c.policies);
  }

  /** A reject policy that governs the node rejects the destinations it hits, unless a policy that decides comes before it. */
  lemma RejectsWhatItHits(c: Cluster, i: Node, u: User, n: string, q: Request, p: Policy)
    requires WellFormed(c) && i in c.nodes && HashFreeUsers(c.users)
    requires u in c.users && Reaches(c, i, n) && Grants(c, u, n)
    requires q.inbound == InboundTag(i) && q.identity == VirtualUser(u.name, n)
    requires Governs(c, i, p) && p.action == "reject" && Hits(p.criteria, q)
    requires forall r :: Decides(InputOf(c, i), r, n, q) && r != p ==> Precedes(p, r)
    ensures Evaluate(ConfigOf(InputOf(c, i)), q) == Rejected
  {
    InputShape(c, i);
    hide InputOf, ConfigOf, Evaluate, Reaches, Grants, Governs, Hits, Precedes, Decides, Provisioned, WellFormed, DistinctPolicies, HashFreeUsers;
    RejectDecides(c, i, p, n, q);
    ProvisionedIffGranted(c, i, u, n);
    FirstRejectRejects(InputOf(c, i), u, n, q, p);
  }

  lemma RejectDecides(c: Cluster, i: Node, p: Policy, n: string, q: Request)
    requires WellFormed(c) && i in c.nodes && Governs(c, i, p) && p.action == "reject" && Hits(p.criteria, q)
    ensures Inbound in i.roles && Decides(InputOf(c, i), p, n, q)
  {
    CollectedIffGoverns(c, i, p);
  }

  // ---------------------------------------------------------------- whom a node's listener lets in

  ghost predicate EntryFor(input: Input, u: User, n: string, x: Auth) {
    u in input.users && MayUse(input, u, n)
    && x == ListenerAuth(EffectiveProtocol(input.node), UuidOf(input.userCreds, u.name), n, VirtualUser(u.name, n))
  }

  lemma {:induction false} EntriesFor(input: Input, users: seq<User>, n: string, x: Auth)
    requires forall u :: u in users ==> u in input.users
    ensures x in ListenerUsersFor(input, users, n) <==> exists u :: u in users && EntryFor(input, u, n, x)
  {
    if users != [] {
      var front, u := users[..|users| - 1], users[|users| - 1];
      assert users == front + [u] && u in users;
      hide MayUse, ListenerAuth, UuidOf, VirtualUser, EffectiveProtocol;
      EntriesFor(input, front, n, x);
      var own := if MayUse(input, u, n) then [ListenerAuth(EffectiveProtocol(input.node), UuidOf(input.userCreds, u.name), n, VirtualUser(u.name, n))] else [];
      assert x in own <==> EntryFor(input, u, n, x);
      hide EntryFor;
    }
  }

  lemma {:induction false} Entries(input: Input, targets: seq<string>, x: Auth)
    ensures x in ListenerUsers(input, targets) <==> exists u, n :: n in targets && EntryFor(input, u, n, x)
  {
    if targets != [] {
      var front, n := targets[..|targets| - 1], targets[|targets| - 1];
      assert targets == front + [n] && n in targets;
      EntryUsers(input, n, x);
      hide EntryFor, ListenerUsersFor;
      Entries(input, front, x);
      EntriesFor(input, input.users, n, x);
    }
  }

  lemma EntryUsers(input: Input, n: string, x: Auth)
    ensures forall u :: EntryFor(input, u, n, x) ==> u in input.users
  {}

  /** The entry a user whose group grants the target gets. */
  ghost predicate Lets(c: Cluster, i: Node, u: User, n: string, x: Auth) {
    u in c.users && Reaches(c, i, n) && Grants(c, u, n)
    && x == ListenerAuth(ProtocolOf(i), if u.name in c.userCreds then c.userCreds[u.name] else "", n, u.name + "#" + n)
  }

  lemma LetsIffEntry(c: Cluster, i: Node, u: User, n: string, x: Auth)
    requires WellFormed(c) && i in c.nodes && Inbound in i.roles
    ensures n in Targets(InputOf(c, i), IsSelfExit(i)) && EntryFor(InputOf(c, i), u, n, x) <==> Lets(c, i, u, n, x)
  {
    assert InputOf(c, i).node == i && ProtocolOf(i) == EffectiveProtocol(i);
    UsersAreCollected(c, i, u);
    TargetsAreReached(c, i, n);
    if u in c.users {
      MayUseIsGrants(c, i, u, n);
      CollectedUuid(c, i, u);
    }
    hide InputOf, Targets, MayUse, Reaches, Grants, ListenerAuth, UuidOf, EffectiveProtocol, ProtocolOf;
    assert VirtualUser(u.name, n) == u.name + "#" + n;
  }

  lemma CollectedUuid(c: Cluster, i: Node, u: User)
    requires Inbound in i.roles && u in c.users
    ensures UuidOf(InputOf(c, i).userCreds, u.name) == if u.name in c.userCreds then c.userCreds[u.name] else ""
  {
    SortedMembers(c);
    var us := SortedUsers(c, i);
    var k :| 0 <= k < |us| && us[k] == u;
    assert UserNames(us)[k] == u.name;
  }

  lemma RoutedListener(input: Input, l: Listener)
    requires l in ConfigOf(input).inbounds && l.tag == InboundTag(input.node) && Relays(input) && HasRole(input.node, Inbound)
    requires ListenerUsers(input, Targets(input, IsSelfExit(input.node))) != []
    ensures l.users == ListenerUsers(input, Targets(input, IsSelfExit(input.node)))
  {
    hide ListenerUsers, Targets, Relays, ConfigOf, PlainUsers, ProtocolPort;
    ClientSideListener(input, l);
  }

  lemma ClientSideListener(input: Input, l: Listener)
    requires l in ConfigOf(input).inbounds && l.tag == InboundTag(input.node) && HasRole(input.node, Inbound)
    ensures l in ClientListeners(input)
  {
    assert InboundTag(input.node)[0] == 'i' && RelayListener(input).tag[0] == 'r';
    hide ClientListeners, AllRules, AllExits, Dedup, RouteFinal, RelayCred;
  }

  lemma SomeoneIsServed(c: Cluster, i: Node, u: User, n: string)
    requires WellFormed(c) && i in c.nodes && Inbound in i.roles && u in c.users && Reaches(c, i, n) && Grants(c, u, n)
    ensures Relays(InputOf(c, i)) && ListenerUsers(InputOf(c, i), Targets(InputOf(c, i), IsSelfExit(i))) != []
  {
    var input := InputOf(c, i);
    assert input.node == i;
    hide InputOf, Targets, ListenerUsers, EntryFor, Reaches, Grants, Relays, WellFormed, ListenerAuth;
    var y := ListenerAuth(ProtocolOf(i), if u.name in c.userCreds then c.userCreds[u.name] else "", n, u.name + "#" + n);
    LetsIffEntry(c, i, u, n, y);
    TargetsMeanRelays(input, n);
    Entries(input, Targets(input, IsSelfExit(i)), y);
  }

  /** The listener of a node that has someone to serve lets in exactly the users its groups grant, once per target. */
  lemma ListenerLetsInGranted(c: Cluster, i: Node, l: Listener, x: Auth)
    requires WellFormed(c) && i in c.nodes && Inbound in i.roles
    requires l in ConfigOf(InputOf(c, i)).inbounds && l.tag == InboundTag(i) && exists u, n :: u in c.users && Reaches(c, i, n) && Grants(c, u, n)
    ensures x in l.users <==> exists u, n :: Lets(c, i, u, n, x)
  {
    hide InputOf, ConfigOf, Targets, ListenerUsers, EntryFor, Reaches, Grants, Relays, WellFormed, Lets, InboundTag, IsSelfExit;
    InputShape(c, i);
    var v, m :| v in c.users && Reaches(c, i, m) && Grants(c, v, m);
    SomeoneIsServed(c, i, v, m);
    RoutedListener(InputOf(c, i), l);
    EntriesAreLet(c, i, x);
  }

  lemma EntriesAreLet(c: Cluster, i: Node, x: Auth)
    requires WellFormed(c) && i in c.nodes && Inbound in i.roles
    ensures x in ListenerUsers(InputOf(c, i), Targets(InputOf(c, i), IsSelfExit(i))) <==> exists u, n :: Lets(c, i, u, n, x)
  {
    hide InputOf, Targets, ListenerUsers, EntryFor, WellFormed, Lets, IsSelfExit;
    var input, targets := InputOf(c, i), Targets(InputOf(c, i), IsSelfExit(i));
    Entries(input, targets, x);
    forall u, n ensures n in targets && EntryFor(input, u, n, x) <==> Lets(c, i, u, n, x) { LetsIffEntry(c, i, u, n, x); }
    if u, n :| n in targets && EntryFor(input, u, n, x) { assert Lets(c, i, u, n, x); }
    if u, n :| Lets(c, i, u, n, x) { assert n in targets && EntryFor(input, u, n, x); }
  }
}
