/** The client config against the cluster: exactly which ways a user is offered, and in which groups. */
module Offering {

  import opened Ordering
  import opened Resources
  import opened Intent
  import opened Engine
  import opened Routing
  import opened Endpoints
  import opened Controller
  import opened Collected
  import opened Client
  import opened Advertised
  import opened ClientTags
  import opened ClientDeciding
  import opened Governing
  import opened Agreement

  // ---------------------------------------------------------------- claimed targets

  lemma MatchesOneIsSole(c: Cluster, u: User, uuid: string, p: Policy, t: string)
    requires WellFormed(c)
    ensures MatchesOne(HandlerInput(c, u, uuid), p, t) <==> Sole(c, p, t)
  {
    var input := HandlerInput(c, u, uuid);
    HandlerFacts(c, u, uuid);
    hide HandlerInput, Picks;
    forall x ensures MatchesNode(input, p, x) <==> exists n :: n in c.nodes && n.name == x && Outbound in n.roles && Picks(p.egress, n.name, n.labels) {}
    forall x ensures MatchesExternal(input, p, x) <==> exists e :: e in c.externals && e.name == x && Picks(p.egress, e.name, e.labels) {}
    forall x ensures Selects(c, p, x) <==> MatchesNode(input, p, x) || MatchesExternal(input, p, x) {}
    forall x ensures !(MatchesNode(input, p, x) && MatchesExternal(input, p, x)) {}
    hide MatchesNode, MatchesExternal, Selects;
  }

  lemma PolicyOnlyIsClaimed(c: Cluster, u: User, uuid: string, t: string)
    requires WellFormed(c)
    ensures t in HandlerInput(c, u, uuid).policyOnly <==> Claimed(c, t)
  {
    var input := HandlerInput(c, u, uuid);
    assert input.policyOnly == PolicyOnly(c.policies, c.nodes, c.externals);
    hide HandlerInput, Candidates, Sole, MatchesOne;
    forall p: Policy ensures |Candidates(p, c.nodes, c.externals)| == 1 && Candidates(p, c.nodes, c.externals)[0] == t <==> Sole(c, p, t) {
      ClientResolvesGlobally(c, u, uuid, p);
      MatchesOneIsTarget(input, p, t);
      MatchesOneIsSole(c, u, uuid, p, t);
    }
  }

  /** After isolation, the policy-only targets are those some route policy claims. */
  lemma IsolatedIsClaimed(c: Cluster, u: User, uuid: string, t: string)
    requires WellFormed(c) && ClientPlan(HandlerInput(c, u, uuid)).Ok?
    ensures var input := HandlerInput(c, u, uuid); t in Isolated(input, ClientPlan(input).value.targets).policyOnly <==> Claimed(c, t)
  {
    var input := HandlerInput(c, u, uuid);
    PolicyOnlyIsClaimed(c, u, uuid, t);
    assert input.policies == c.policies;
    hide HandlerInput, ClientPlan, MatchesOne, Sole, TargetHasGroup;
    LeastPolicyActs(input, k => false);
    forall p: Policy ensures MatchesOne(input, p, t) <==> Sole(c, p, t) { MatchesOneIsSole(c, u, uuid, p, t); }
  }

  // ---------------------------------------------------------------- reachable targets

  lemma AllowedIsGrants(c: Cluster, u: User, uuid: string, name: string)
    ensures IsNodeAllowed(name, HandlerInput(c, u, uuid).allowed, HandlerInput(c, u, uuid).denied) <==> Grants(c, u, name)
  {
    if u.groupRef in c.groups {
      var g := c.groups[u.groupRef];
      assert ToSet(g.allowedNodes) == {} <==> g.allowedNodes == [] by {
        if g.allowedNodes != [] { assert g.allowedNodes[0] in ToSet(g.allowedNodes); }
      }
    }
  }

  lemma OfflineIsDown(c: Cluster, u: User, uuid: string, name: string)
    ensures name in HandlerInput(c, u, uuid).offline <==> !Online(c, name)
  {}

  /** What the client builder starts from, after isolation. */
  ghost function Start(c: Cluster, u: User, uuid: string): ClientInput
    requires ClientPlan(HandlerInput(c, u, uuid)).Ok?
  {
    Isolated(HandlerInput(c, u, uuid), ClientPlan(HandlerInput(c, u, uuid)).value.targets)
  }

  /** The facts of the starting input, off the cluster. */
  ghost predicate Reads(c: Cluster, u: User, input: ClientInput) {
    && Keyed(input)
    && (forall n :: n in input.inboundNodes <==> n in c.nodes && Inbound in n.roles)
    && (forall k :: k in input.outboundsByName ==> input.outboundsByName[k] in c.nodes && Outbound in input.outboundsByName[k].roles)
    && (forall n :: n in c.nodes && Outbound in n.roles ==> n.name in input.outboundsByName && input.outboundsByName[n.name] == n)
    && (forall k :: k in input.externalsByName ==> input.externalsByName[k] in c.externals)
    && (forall e :: e in c.externals ==> e.name in input.externalsByName && input.externalsByName[e.name] == e)
    && (forall x :: IsNodeAllowed(x, input.allowed, input.denied) <==> Grants(c, u, x))
    && (forall x :: x in input.offline <==> !Online(c, x))
    && (forall x :: x in input.policyOnly <==> Claimed(c, x))
  }

  lemma StartReads(c: Cluster, u: User, uuid: string)
    requires WellFormed(c) && ClientPlan(HandlerInput(c, u, uuid)).Ok?
    ensures Reads(c, u, Start(c, u, uuid))
  {
    HandlerFacts(c, u, uuid);
    var input := Start(c, u, uuid);
    hide HandlerInput, ClientPlan, Claimed, Online, Grants, IsNodeAllowed, WellFormed;
    forall x ensures IsNodeAllowed(x, input.allowed, input.denied) <==> Grants(c, u, x) { AllowedIsGrants(c, u, uuid, x); }
    forall x ensures x in input.offline <==> !Online(c, x) { OfflineIsDown(c, u, uuid, x); }
    forall x ensures x in input.policyOnly <==> Claimed(c, x) { IsolatedIsClaimed(c, u, uuid, x); }
  }

  lemma GroupsRead(c: Cluster, u: User, input: ClientInput, name: string, g: string)
    requires WellFormed(c) && Reads(c, u, input)
    ensures TargetHasGroup(input, name, g) <==> InGroup(c, name, g)
  {
    hide Claimed, Online, Grants, IsNodeAllowed;
  }

  /** The target may be offered at all: the group grants it, and a claimed one is in the ai group. */
  lemma SelectableRead(c: Cluster, u: User, input: ClientInput, name: string)
    requires WellFormed(c) && Reads(c, u, input)
    ensures Selectable(input, name) <==> Grants(c, u, name) && (Claimed(c, name) ==> InGroup(c, name, "ai"))
  {
    GroupsRead(c, u, input, name, AI);
    hide Claimed, Online, Grants, IsNodeAllowed, InGroup, TargetHasGroup;
  }

  ghost predicate May(c: Cluster, u: User, name: string) { Grants(c, u, name) && (Claimed(c, name) ==> InGroup(c, name, "ai")) }

  lemma NodeWay(c: Cluster, u: User, input: ClientInput, i: Node, name: string)
    requires WellFormed(c) && Reads(c, u, input) && i in c.nodes && name != i.name
    ensures ViaNode(input, i, name) <==> May(c, u, name) && Online(c, name) && exists n :: NearNode(c, i, n) && n.name == name && n.relayPort > 0
    ensures !ViaSelf(input, i, name)
  {
    SelectableRead(c, u, input, name);
    hide Claimed, Online, Grants, IsNodeAllowed, InGroup, Selectable;
    if name in input.outboundsByName {
      var n := input.outboundsByName[name];
      assert forall m :: NearNode(c, i, m) && m.name == name ==> m == n;
    }
  }

  lemma SelfWay(c: Cluster, u: User, input: ClientInput, i: Node)
    requires WellFormed(c) && Reads(c, u, input) && i in c.nodes
    ensures ViaNode(input, i, i.name) || ViaSelf(input, i, i.name) <==>
            May(c, u, i.name) && Online(c, i.name) && Outbound in i.roles && Admitted(i.allowedOutbounds, i.name)
    ensures !ViaExternal(input, i, i.name)
  {
    SelectableRead(c, u, input, i.name);
    hide Claimed, Online, Grants, IsNodeAllowed, InGroup, Selectable;
    if i.name in input.outboundsByName { assert input.outboundsByName[i.name] == i; }
  }

  lemma ExternalWay(c: Cluster, u: User, input: ClientInput, i: Node, name: string)
    requires WellFormed(c) && Reads(c, u, input) && i in c.nodes
    ensures ViaExternal(input, i, name) <==> May(c, u, name) && exists e :: NearExternal(c, i, e) && e.name == name
    ensures (exists e :: NearExternal(c, i, e) && e.name == name) ==> Online(c, name) && name != i.name && !ViaNode(input, i, name)
  {
    SelectableRead(c, u, input, name);
    hide Claimed, Grants, IsNodeAllowed, InGroup, Selectable;
    if name in input.externalsByName {
      var e := input.externalsByName[name];
      assert forall x :: NearExternal(c, i, x) && x.name == name ==> x == e;
    }
  }

  lemma AllFurnished(c: Cluster, e: External)
    requires CompleteCredentials(c) && e in c.externals
    ensures Furnished(c, e)
  {
    RequiredIsFurnished(c, e);
  }

  /** Exactly the targets a client resolves from an inbound node. */
  lemma ResolvedIff(c: Cluster, u: User, input: ClientInput, i: Node, name: string)
    requires WellFormed(c) && CompleteCredentials(c) && Reads(c, u, input) && i in c.nodes
    ensures RefFor(input, i, name).Some? <==>
            May(c, u, name) && Online(c, name) && Reaches(c, i, name) && (name == i.name ==> Admitted(i.allowedOutbounds, name))
  {
    hide May, Online, Furnished, ViaNode, ViaSelf, ViaExternal, NearNode, NearExternal, Reads, CompleteCredentials;
    forall e | NearExternal(c, i, e) ensures Furnished(c, e) { NearIsListed(c, i, e); AllFurnished(c, e); }
    ExternalWay(c, u, input, i, name);
    if name == i.name {
      SelfWay(c, u, input, i);
      NoNearSelf(c, i);
    } else {
      NodeWay(c, u, input, i, name);
    }
  }

  lemma NearIsListed(c: Cluster, i: Node, e: External)
    requires NearExternal(c, i, e)
    ensures e in c.externals
  {}

  lemma NoNearSelf(c: Cluster, i: Node)
    ensures forall n :: NearNode(c, i, n) ==> n.name != i.name
  {}

  lemma RefGroups(c: Cluster, u: User, input: ClientInput, i: Node, name: string, g: string)
    requires WellFormed(c) && Reads(c, u, input) && i in c.nodes && RefFor(input, i, name).Some?
    ensures RefFor(input, i, name).value.name == name && (g in RefFor(input, i, name).value.clientGroups <==> InGroup(c, name, g))
  {
    GroupsRead(c, u, input, name, g);
    hide Claimed, Online, Grants, IsNodeAllowed, InGroup, NodeReachable, ExternalReachable, Selectable;
  }

  lemma EntryIff(c: Cluster, u: User, input: ClientInput, i: Node)
    requires Reconciled(c) && WellFormed(c) && Reads(c, u, input) && i in c.nodes && Inbound in i.roles
    ensures EntryOf(input, i).Some? <==> Enterable(i)
  {
    var protocol := EffectiveProtocol(i);
    EndpointRoundTrip(i.protocols, i.address, protocol);
    assert Online(c, i.name) <==> i.status.ready != Some(false);
    hide FindEntryEndpoint, EndpointsOf, Claimed, Grants, IsNodeAllowed, Online;
  }

  lemma KeptIff(c: Cluster, u: User, input: ClientInput, i: Node, name: string, g: string)
    requires WellFormed(c) && Reads(c, u, input) && i in c.nodes && RefFor(input, i, name).Some?
    ensures Kept(input, RefFor(input, i, name).value, g) <==>
            g in {"hk", "jp", "us", "ai"} && InGroup(c, name, g) && (g == "ai" || !Claimed(c, name))
  {
    RefGroups(c, u, input, i, name, g);
    hide RefFor, InGroup, Claimed, Online, Grants, IsNodeAllowed;
  }

  lemma OfferIff(c: Cluster, u: User, input: ClientInput, i: Node, name: string, g: string)
    requires WellFormed(c) && Reconciled(c) && CompleteCredentials(c) && Reads(c, u, input) && i in c.nodes
    ensures Offers(input, i, name) && Kept(input, RefFor(input, i, name).value, g) <==> OfferedIn(c, u, i, name, g)
  {
    assert i in input.inboundNodes <==> Inbound in i.roles;
    EnterableIsInbound(i);
    hide Reads, RefFor, Kept, InGroup, Claimed, Online, Grants, Reaches, EntryOf, Enterable, Reconciled, CompleteCredentials, WellFormed;
    if Inbound in i.roles { EntryIff(c, u, input, i); }
    ResolvedIff(c, u, input, i, name);
    if RefFor(input, i, name).Some? {
      KeptIff(c, u, input, i, name, g);
      KeptIsShown(input, RefFor(input, i, name).value, g);
    }
  }

  lemma EnterableIsInbound(i: Node)
    ensures Enterable(i) ==> Inbound in i.roles
  {}

  lemma KeptIsShown(input: ClientInput, ref: Ref, g: string)
    ensures Kept(input, ref, g) ==> Shown(input, ref)
  {}

  lemma StartIsWellNamed(c: Cluster, u: User, uuid: string)
    requires WellFormed(c) && ClientPlan(HandlerInput(c, u, uuid)).Ok? && HashFreeNames(HandlerInput(c, u, uuid))
    ensures WellNamed(Start(c, u, uuid))
  {
    HandlerFacts(c, u, uuid);
    FilterNoDup(IsInbound(), c.nodes);
    assert HandlerInput(c, u, uuid).inboundNodes == Filter(IsInbound(), c.nodes);
    hide ClientPlan;
  }

  lemma OneWay(c: Cluster, u: User, input: ClientInput, p: Path, i: Node, name: string)
    requires WellFormed(c) && WellNamed(input) && Reads(c, u, input) && i in c.nodes && HashFree(i.name) && HashFree(name)
    requires p in Paths(input, input.inboundNodes) && TagOf(p) == WayTag(i, name)
    ensures p.inbound == i && p.ref.name == name
  {
    PathNames(input, p);
    PathTagInjective(p.inbound.name, p.ref.name, i.name, name);
    PathFacts(input, input.inboundNodes, p);
    hide Paths, HashFree, PathTag, TagOf;
    assert p.inbound in c.nodes;
  }

  lemma ListedIff(c: Cluster, u: User, input: ClientInput, i: Node, name: string, g: string)
    requires WellFormed(c) && Reconciled(c) && CompleteCredentials(c) && WellNamed(input) && Reads(c, u, input)
    requires i in c.nodes && HashFree(i.name) && HashFree(name)
    ensures Lists(OutboundsOf(input), g, WayTag(i, name)) <==> OfferedIn(c, u, i, name, g)
  {
    var ps := Paths(input, input.inboundNodes);
    assert WayTag(i, name) == PathTag(i.name, name);
    SelectorLists(input, g, WayTag(i, name));
    OfferIff(c, u, input, i, name, g);
    OfferedGroups(c, u, i, name, g);
    hide Paths, OutboundsOf, Kept, Offers, OfferedIn, WellFormed, Reconciled, CompleteCredentials, WellNamed, Reads, HashFree, WayTag, PathTag, RefFor;
    if WayTag(i, name) in Members(input, ps, g) {
      var p :| p in ps && Kept(input, p.ref, g) && TagOf(p) == WayTag(i, name);
      OneWay(c, u, input, p, i, name);
      PathsAreOffers(input, p);
    }
    if OfferedIn(c, u, i, name, g) {
      OfferedPath(input, i, name);
    }
  }

  lemma OfferedGroups(c: Cluster, u: User, i: Node, name: string, g: string)
    ensures OfferedIn(c, u, i, name, g) ==> g in GROUPS
  {}

  /** A selector of a user's client config lists a way exactly when the cluster offers it in that group, and a proxy is
      emitted for it exactly when some group does. */
  lemma AdvertisedIffOffered(c: Cluster, u: User, uuid: string, i: Node, name: string, g: string)
    requires WellFormed(c) && Reconciled(c) && CompleteCredentials(c)
    requires ClientConfigOf(HandlerInput(c, u, uuid)).Ok? && HashFreeNames(HandlerInput(c, u, uuid))
    requires i in c.nodes && HashFree(i.name) && HashFree(name)
    ensures var os := ClientConfigOf(HandlerInput(c, u, uuid)).value;
            && (Lists(os, g, WayTag(i, name)) <==> OfferedIn(c, u, i, name, g))
            && (WayTag(i, name) in ProxyTags(os) <==> exists h :: OfferedIn(c, u, i, name, h))
  {
    var input := Start(c, u, uuid);
    StartReads(c, u, uuid);
    StartIsWellNamed(c, u, uuid);
    assert ClientConfigOf(HandlerInput(c, u, uuid)).value == OutboundsOf(input);
    hide ClientConfigOf, Start, OutboundsOf, Lists, ProxyTags, OfferedIn, WayTag, WellFormed, Reconciled, CompleteCredentials, WellNamed, Reads, HashFree, HashFreeNames;
    ListedIff(c, u, input, i, name, g);
    SelectorClosure(input, WayTag(i, name));
    forall h ensures Lists(OutboundsOf(input), h, WayTag(i, name)) <==> OfferedIn(c, u, i, name, h) { ListedIff(c, u, input, i, name, h); }
  }

  /** The converse of serving every proxy: a provisioned target that is online, in a known group, and in ai when a policy
      claims it, is offered through every node clients can enter; for the node itself its own whitelist must admit it. */
  lemma ProvisionedIsOffered(c: Cluster, u: User, uuid: string, i: Node, name: string)
    requires WellFormed(c) && Reconciled(c) && CompleteCredentials(c)
    requires ClientConfigOf(HandlerInput(c, u, uuid)).Ok? && HashFreeNames(HandlerInput(c, u, uuid))
    requires i in c.nodes && HashFree(i.name) && HashFree(name) && Enterable(i)
    requires Provisioned(InputOf(c, i), u, name) && Online(c, name) && (name == i.name ==> Admitted(i.allowedOutbounds, name))
    requires exists g :: g in {"hk", "jp", "us", "ai"} && InGroup(c, name, g) && (Claimed(c, name) ==> g == "ai")
    ensures exists o :: o in ClientConfigOf(HandlerInput(c, u, uuid)).value && o.Proxy? && o.tag == PathTag(i.name, name)
  {
    hide InputOf, Provisioned, HandlerInput, ClientConfigOf, Reaches, Grants, Online, Enterable, InGroup, Claimed, WellFormed, Reconciled, CompleteCredentials;
    var g :| g in {"hk", "jp", "us", "ai"} && InGroup(c, name, g) && (Claimed(c, name) ==> g == "ai");
    ProvisionedIffGranted(c, i, u, name);
    AdvertisedIffOffered(c, u, uuid, i, name, g);
    assert OfferedIn(c, u, i, name, g);
    assert WayTag(i, name) in ProxyTags(ClientConfigOf(HandlerInput(c, u, uuid)).value);
  }
}
