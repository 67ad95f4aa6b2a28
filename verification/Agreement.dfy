/** Client and server agree: every advertised path is served by the config of its inbound node. */
module Agreement {

  import opened Ordering
  import opened Resources
  import opened Engine
  import opened Routing
  import opened Endpoints
  import opened Controller
  import opened Collected
  import opened Closure
  import opened Confinement
  import opened Client
  import opened Advertised

  /** Every inbound node's status carries the endpoints last printed for it, on ports the schema allows. */
  ghost predicate Reconciled(c: Cluster) {
    forall n :: n in c.nodes && HasRole(n, Inbound) ==>
      && n.status.entryEndpoints == EndpointsOf(n.protocols, n.address)
      && PortsWellFormed(n.protocols) && (forall p :: p in n.protocols ==> p.port >= 1)
  }

  ghost predicate CompleteCredentials(c: Cluster) {
    forall e :: e in c.externals ==> HasRequiredCreds(e, CredsOf(c.externalCreds, e.name))
  }

  ghost predicate HasCredential(c: Cluster, u: User, uuid: string) {
    u in c.users && u.name in c.userCreds && c.userCreds[u.name] == uuid
  }

  /** The input the client outbounds are built from, after policy isolation. */
  ghost predicate BuiltFrom(c: Cluster, u: User, uuid: string, input: ClientInput) {
    exists targets :: input == Isolated(HandlerInput(c, u, uuid), targets)
  }

  lemma ServingFacts(c: Cluster, u: User, uuid: string, input: ClientInput)
    requires WellFormed(c) && BuiltFrom(c, u, uuid, input)
    ensures Keyed(input) && input.inboundNodes == HandlerInput(c, u, uuid).inboundNodes
    ensures input.outboundsByName == HandlerInput(c, u, uuid).outboundsByName
    ensures input.externalsByName == HandlerInput(c, u, uuid).externalsByName
    ensures input.user == u && input.uuid == uuid
    ensures forall t :: IsNodeAllowed(t, input.allowed, input.denied) <==> GroupAllows(c, u, t)
  {
    HandlerFacts(c, u, uuid);
  }

  // ---------------------------------------------------------------- an advertised target is provisioned and emitted

  lemma PeerServed(c: Cluster, i: Node, m: Node)
    requires WellFormed(c) && m in c.nodes && PeerOf(i, m) && m.relayPort != 0
    ensures m.name in PeerNames(InputOf(c, i).outboundNodes)
  {
    SortedMembers(c);
    FilterMembers(Peering(i), SortedNodes(c));
    assert m in InputOf(c, i).outboundNodes;
  }

  lemma DiscoveredCredentials(c: Cluster, i: Node, e: External)
    requires WellFormed(c) && e in InputOf(c, i).externals
    ensures CredsOf(InputOf(c, i).externalCreds, e.name) == CredsOf(c.externalCreds, e.name)
    ensures DistinctExternals(InputOf(c, i).externals)
  {
    hide SortedExternals, SortedNodes, Filter, IndexExternals, IndexNodes, PolicyExternals, PolicyNodes, AdmittedPolicies, DeniedSets, AllowedSets;
    SortedMembers(c);
    FilterMembers(Discoverable(Taken(i, c.nodes), i), SortedExternals(c));
    assert e in KnownExternals(c, i);
    ExternalNamesMembers(KnownExternals(c, i), e.name);
  }

  lemma ExternalServed(c: Cluster, i: Node, e: External)
    requires WellFormed(c) && CompleteCredentials(c) && i in c.nodes && e in c.externals
    requires e.region != "" && e.region == i.region && PairAllowed(i, e.name, e.allowedInbounds)
    ensures e.name in ExternalNames(UsableExternals(InputOf(c, i), InputOf(c, i).externals))
  {
    var input := InputOf(c, i);
    ExternalUnshadowed(c, i, e);
    ConnectedExternalIsDiscovered(c, i, e);
    DiscoveredCredentials(c, i, e);
    UsableExternalListed(input, input.externals, e);
    ExternalNamesMembers(UsableExternals(input, input.externals), e.name);
  }

  /** A target a client may be offered through an inbound node is provisioned there and has an outbound. */
  lemma ReachableIsServed(c: Cluster, u: User, uuid: string, input: ClientInput, i: Node, n: string)
    requires WellFormed(c) && CompleteCredentials(c) && BuiltFrom(c, u, uuid, input)
    requires i in c.nodes && HasRole(i, Inbound) && RefFor(input, i, n).Some?
    ensures n in Targets(InputOf(c, i), IsSelfExit(i))
    ensures OutboundTag(n) in Tags(ConfigOf(InputOf(c, i)).outbounds)
  {
    var server := InputOf(c, i);
    ServingFacts(c, u, uuid, input);
    HandlerFacts(c, u, uuid);
    CollectedIsGated(c, i);
    TargetMembers(server, IsSelfExit(i));
    EmittedTargets(server, n);
    DedupFacts(AllExits(server));
    if ViaNode(input, i, n) {
      var m := input.outboundsByName[n];
      if m.name == i.name {
        assert m == i;
      } else {
        PeerServed(c, i, m);
      }
    } else if ViaExternal(input, i, n) {
      ExternalServed(c, i, input.externalsByName[n]);
    }
  }

  // ---------------------------------------------------------------- listener and rule of a virtual user

  lemma TargetsMeanRelays(input: Input, n: string)
    requires n in Targets(input, IsSelfExit(input.node))
    ensures Relays(input)
  {
    TargetMembers(input, IsSelfExit(input.node));
  }

  lemma {:induction false} ListenerUsersForMember(input: Input, users: seq<User>, u: User, n: string)
    requires u in users && MayUse(input, u, n)
    ensures ListenerAuth(EffectiveProtocol(input.node), UuidOf(input.userCreds, u.name), n, VirtualUser(u.name, n)) in ListenerUsersFor(input, users, n)
  {
    var front := users[..|users| - 1];
    assert users == front + [users[|users| - 1]];
    if u in front { ListenerUsersForMember(input, front, u, n); }
  }

  lemma {:induction false} ListenerUsersMember(input: Input, targets: seq<string>, u: User, n: string)
    requires n in targets && u in input.users && MayUse(input, u, n)
    ensures ListenerAuth(EffectiveProtocol(input.node), UuidOf(input.userCreds, u.name), n, VirtualUser(u.name, n)) in ListenerUsers(input, targets)
  {
    var front, t := targets[..|targets| - 1], targets[|targets| - 1];
    assert targets == front + [t];
    if n in front {
      ListenerUsersMember(input, front, u, n);
    } else {
      ListenerUsersForMember(input, input.users, u, n);
    }
  }

  /** A listener of that type, with or without TLS, accepts a credential for an identity on a port. */
  ghost predicate Accepts(cfg: Config, tag: string, kind: string, tls: bool, port: int, auth: Auth) {
    exists l :: l in cfg.inbounds && l.tag == tag && l.kind == kind && l.tls == tls && l.port == port && auth in l.users
  }

  lemma TlsAgrees(protocol: string)
    ensures UsesTls(protocol) <==> Encrypted(protocol)
  {}

  function KindOf(protocol: string): string { if protocol == "socks5" then "socks" else protocol }

  predicate Encrypted(protocol: string) { protocol == "hysteria2" || protocol == "naive" || protocol == "anytls" || protocol == "tuic" }

  lemma ProvisionedIsAccepted(input: Input, u: User, n: string)
    requires Provisioned(input, u, n)
    requires ProtocolPort(input.node.protocols, EffectiveProtocol(input.node)) != 0
    ensures Accepts(ConfigOf(input), InboundTag(input.node), KindOf(EffectiveProtocol(input.node)), Encrypted(EffectiveProtocol(input.node)),
                    ProtocolPort(input.node.protocols, EffectiveProtocol(input.node)),
                    ListenerAuth(EffectiveProtocol(input.node), UuidOf(input.userCreds, u.name), n, VirtualUser(u.name, n)))
  {
    var targets, protocol := Targets(input, IsSelfExit(input.node)), EffectiveProtocol(input.node);
    hide Targets, Relays, ListenerUsers, MayUse, ConfigOf, ListenerAuth, ProtocolPort, EffectiveProtocol, VirtualUser;
    ListenerUsersMember(input, targets, u, n);
    RoutedIsListed(input);
    var l := InboundEntry(protocol, ProtocolPort(input.node.protocols, protocol), ListenerUsers(input, targets));
    assert l in ConfigOf(input).inbounds && l.tls == Encrypted(protocol) && l.kind == KindOf(protocol);
  }

  lemma RoutedIsListed(input: Input)
    requires HasRole(input.node, Inbound) && Relays(input) && ListenerUsers(input, Targets(input, IsSelfExit(input.node))) != []
    requires ProtocolPort(input.node.protocols, EffectiveProtocol(input.node)) != 0
    ensures var protocol := EffectiveProtocol(input.node);
            InboundEntry(protocol, ProtocolPort(input.node.protocols, protocol), ListenerUsers(input, Targets(input, IsSelfExit(input.node)))) in ConfigOf(input).inbounds
  {
    hide Targets, Relays, ListenerUsers, ProtocolPort, EffectiveProtocol, InboundEntry, UserListeners, AllExits, AllRules, Dedup, RouteFinal, RelayListener;
  }

  /** A generic rule sends a virtual user to a target's outbound. */
  ghost predicate Sends(cfg: Config, identity: string, tag: string) {
    exists r :: r in cfg.rules && r.inbound == [] && identity in r.authUser && r.criteria == NO_CRITERIA && r.action == "" && r.outbound == tag
  }

  lemma ProvisionedIsListed(input: Input, u: User, n: string)
    requires Provisioned(input, u, n)
    ensures VirtualUser(u.name, n) in AuthUsers(input, input.users, n)
  {
    hide Targets, VirtualUser, MayUse;
  }

  lemma ProvisionedIsSent(input: Input, u: User, n: string)
    requires Provisioned(input, u, n)
    ensures Sends(ConfigOf(input), VirtualUser(u.name, n), OutboundTag(n))
  {
    hide AuthUsers, GenericRules, Targets, PolicyRules, Relays, AllExits, Dedup, ClientListeners, OutboundTag, VirtualUser, SortBy, MayUse;
    var targets := Targets(input, IsSelfExit(input.node));
    var r := Rule([], AuthUsers(input, input.users, n), NO_CRITERIA, "", OutboundTag(n));
    TargetsMeanRelays(input, n);
    ProvisionedIsListed(input, u, n);
    assert r in GenericRule(input, n);
    GenericRuleTargets(input, targets, r);
    assert r in ConfigOf(input).rules;
  }

  // ---------------------------------------------------------------- agreement

  /** Which secrets a protocol derives, and from what: the derived uuid and password from the user's uuid and the target. */
  lemma DerivedSecrets(protocol: string, uuid: string, target: string)
    ensures var auth := DeriveAuth(protocol, uuid, target);
            && ("uuid" in auth <==> protocol == "vless" || protocol == "tuic")
            && ("username" in auth <==> protocol == "socks5" || protocol == "http" || protocol == "naive")
            && ("password" in auth <==> protocol != "vless")
            && (forall k :: k in auth ==> k == "uuid" || k == "username" || k == "password")
            && ("uuid" in auth ==> auth["uuid"] == Uuid(uuid, target))
            && ("username" in auth ==> auth["username"] == Plain(uuid))
            && ("password" in auth ==> auth["password"] == Password(uuid, target))
  {}

  /** The entry without the identity it is filed under. */
  function Secrets(protocol: string, entry: Auth): Auth { entry - {if protocol == "naive" then "username" else "name"} }

  /** Two listener entries with the same secrets belong to the same uuid and target. */
  lemma SecretsDetermineOwner(protocol: string, a: string, s: string, x: string, b: string, t: string, y: string)
    requires Secrets(protocol, ListenerAuth(protocol, a, s, x)) == Secrets(protocol, ListenerAuth(protocol, b, t, y))
    ensures a == b && s == t
  {
    var l, r := ListenerAuth(protocol, a, s, x), ListenerAuth(protocol, b, t, y);
    DerivedSecrets(protocol, a, s);
    DerivedSecrets(protocol, b, t);
    hide DeriveAuth;
    var k := if protocol == "vless" then "uuid" else "password";
    assert Secrets(protocol, l)[k] == l[k] && Secrets(protocol, r)[k] == r[k];
  }

  /** A client's credential as a listener files it under an identity; naive carries its identity already. */
  function Filed(protocol: string, auth: Auth, identity: string): Auth {
    if protocol == "naive" then auth else auth["name" := Plain(identity)]
  }

  /** The two derivations meet: the listener entry is the client's credential, filed under the virtual user. */
  lemma AuthAgrees(protocol: string, uuid: string, user: string, n: string)
    ensures ListenerAuth(protocol, uuid, n, VirtualUser(user, n)) == Filed(protocol, ClientAuth(protocol, uuid, user, n), VirtualUser(user, n))
  {}

  lemma ProxyAgrees(input: ClientInput, p: Path)
    ensures var proxy, protocol, v := ProxyOf(input, p), EffectiveProtocol(p.inbound), VirtualUser(input.user.name, p.ref.name);
            && proxy.Proxy? && proxy.kind == KindOf(protocol) && proxy.server == p.entry.address && proxy.port == p.entry.port
            && proxy.tls == (if Encrypted(protocol) then Some(p.inbound.status.tlsServerName) else None)
            && Filed(protocol, proxy.auth, v) == ListenerAuth(protocol, input.uuid, p.ref.name, v)
  {
    AuthAgrees(EffectiveProtocol(p.inbound), input.uuid, input.user.name, p.ref.name);
    TlsAgrees(EffectiveProtocol(p.inbound));
    hide Filed, ClientAuth, ListenerAuth, DeriveAuth, Encrypted, UsesTls, EffectiveProtocol, VirtualUser, TagOf;
  }

  lemma {:induction false} SupportedPort(ps: seq<ProtocolConfig>, protocol: string)
    requires Supports(ps, protocol) && forall p :: p in ps ==> p.port >= 1
    ensures ProtocolPort(ps, protocol) >= 1
  {
    if ps[0].protocol != protocol {
      assert ps == [ps[0]] + ps[1..];
      SupportedPort(ps[1..], protocol);
    }
  }

  lemma EntryAgrees(c: Cluster, input: ClientInput, i: Node)
    requires Reconciled(c) && i in c.nodes && HasRole(i, Inbound) && EntryOf(input, i).Some?
    ensures EntryOf(input, i).value == Entry(i.address, ProtocolPort(i.protocols, EffectiveProtocol(i)))
    ensures ProtocolPort(i.protocols, EffectiveProtocol(i)) != 0
  {
    EndpointRoundTrip(i.protocols, i.address, EffectiveProtocol(i));
    SupportedPort(i.protocols, EffectiveProtocol(i));
  }

  lemma PathOrigin(c: Cluster, u: User, uuid: string, input: ClientInput, p: Path)
    requires WellFormed(c) && BuiltFrom(c, u, uuid, input) && p in Paths(input, input.inboundNodes)
    ensures p.inbound in c.nodes && HasRole(p.inbound, Inbound) && EntryOf(input, p.inbound) == Some(p.entry)
    ensures RefFor(input, p.inbound, p.ref.name) == Some(p.ref) && GroupAllows(c, u, p.ref.name)
  {
    ServingFacts(c, u, uuid, input);
    HandlerFacts(c, u, uuid);
    PathFacts(input, input.inboundNodes, p);
    RefsFacts(input, p.inbound.name, p.ref);
    var found := FindInbound(input.inboundNodes, p.inbound.name).value;
    assert found == p.inbound;
  }

  lemma PathProvisioned(c: Cluster, u: User, uuid: string, input: ClientInput, p: Path)
    requires WellFormed(c) && CompleteCredentials(c) && u in c.users
    requires BuiltFrom(c, u, uuid, input) && p in Paths(input, input.inboundNodes)
    ensures Provisioned(InputOf(c, p.inbound), u, p.ref.name)
    ensures OutboundTag(p.ref.name) in Tags(ConfigOf(InputOf(c, p.inbound)).outbounds)
  {
    PathOrigin(c, u, uuid, input, p);
    ReachableIsServed(c, u, uuid, input, p.inbound, p.ref.name);
    MayUseIsGroupAllows(c, p.inbound, u, p.ref.name);
    TargetsMeanRelays(InputOf(c, p.inbound), p.ref.name);
  }

  /** Every path the client config advertises is served: its inbound node listens on the advertised port and
      accepts the client's credential as u#n, a generic rule sends u#n to outbound-n, and outbound-n is emitted. */
  lemma ClientServerAgreement(c: Cluster, u: User, uuid: string, input: ClientInput, p: Path)
    requires WellFormed(c) && Reconciled(c) && CompleteCredentials(c) && HasCredential(c, u, uuid)
    requires BuiltFrom(c, u, uuid, input) && p in Paths(input, input.inboundNodes)
    ensures var cfg, proxy, v := ConfigOf(InputOf(c, p.inbound)), ProxyOf(input, p), VirtualUser(u.name, p.ref.name);
            && proxy.server == p.inbound.address
            && proxy.tls == (if Encrypted(EffectiveProtocol(p.inbound)) then Some(p.inbound.status.tlsServerName) else None)
            && Accepts(cfg, InboundTag(p.inbound), proxy.kind, proxy.tls.Some?, proxy.port,
                       Filed(EffectiveProtocol(p.inbound), proxy.auth, v))
            && Sends(cfg, v, OutboundTag(p.ref.name))
            && OutboundTag(p.ref.name) in Tags(cfg.outbounds)
  {
    var server := InputOf(c, p.inbound);
    assert server.node == p.inbound;
    hide InputOf, ConfigOf, Paths, ProxyOf, Filed, ListenerAuth, EntryOf, RefFor, HandlerInput, Accepts, Sends, Encrypted, KindOf, ProtocolPort,
      Provisioned, BuiltFrom, Tags, EffectiveProtocol, InboundTag, VirtualUser, OutboundTag;
    ServingFacts(c, u, uuid, input);
    PathOrigin(c, u, uuid, input, p);
    PathProvisioned(c, u, uuid, input, p);
    EntryAgrees(c, input, p.inbound);
    UuidCollected(c, p.inbound, u, uuid);
    ProvisionedIsAccepted(server, u, p.ref.name);
    ProvisionedIsSent(server, u, p.ref.name);
    ProxyAgrees(input, p);
  }

  /** A client proxy entry is served by node i for target n. */
  ghost predicate ServedBy(c: Cluster, u: User, o: ClientOutbound, i: Node, n: string)
    requires o.Proxy?
  {
    var cfg, v := ConfigOf(InputOf(c, i)), VirtualUser(u.name, n);
    && i in c.nodes && o.tag == PathTag(i.name, n) && o.server == i.address
    && o.tls == (if Encrypted(EffectiveProtocol(i)) then Some(i.status.tlsServerName) else None)
    && Accepts(cfg, InboundTag(i), o.kind, o.tls.Some?, o.port, Filed(EffectiveProtocol(i), o.auth, v))
    && Sends(cfg, v, OutboundTag(n)) && OutboundTag(n) in Tags(cfg.outbounds)
  }

  /** Every proxy entry of a user's client config is served by the config of some inbound node. */
  lemma EveryProxyIsServed(c: Cluster, u: User, uuid: string, o: ClientOutbound)
    requires WellFormed(c) && Reconciled(c) && CompleteCredentials(c) && HasCredential(c, u, uuid)
    requires ClientConfigOf(HandlerInput(c, u, uuid)).Ok? && o in ClientConfigOf(HandlerInput(c, u, uuid)).value && o.Proxy?
    ensures exists i, n :: ServedBy(c, u, o, i, n)
  {
    var input := Isolated(HandlerInput(c, u, uuid), ClientPlan(HandlerInput(c, u, uuid)).value.targets);
    var ps := Paths(input, input.inboundNodes);
    assert BuiltFrom(c, u, uuid, input);
    OutboundMember(input, o);
    if o in Selectors(input, ps) { SelectorShape(input, ps, o); }
    ProxyShape(input, ps, o);
    var p :| p in ps && o == ProxyOf(input, p);
    ClientServerAgreement(c, u, uuid, input, p);
    PathOrigin(c, u, uuid, input, p);
    assert ServedBy(c, u, o, p.inbound, p.ref.name);
  }

  lemma UuidCollected(c: Cluster, i: Node, u: User, uuid: string)
    requires HasRole(i, Inbound) && HasCredential(c, u, uuid)
    ensures UuidOf(InputOf(c, i).userCreds, u.name) == uuid
  {
    SortedMembers(c);
    var us := SortedUsers(c, i);
    var k :| 0 <= k < |us| && us[k] == u;
    assert UserNames(us)[k] == u.name;
  }

  /** Traffic entering by an advertised path meets, at its inbound node, exactly the reference policy decision. */
  lemma AdvertisedPathDecision(c: Cluster, u: User, uuid: string, input: ClientInput, p: Path, q: Request)
    requires WellFormed(c) && CompleteCredentials(c) && u in c.users && HashFreeUsers(c.users)
    requires BuiltFrom(c, u, uuid, input) && p in Paths(input, input.inboundNodes)
    requires q.inbound == InboundTag(p.inbound) && q.identity == VirtualUser(u.name, p.ref.name)
    ensures var server := InputOf(c, p.inbound);
            Evaluate(ConfigOf(server), q) == Reference(server, SortedPolicies(server), p.ref.name, q)
  {
    PathProvisioned(c, u, uuid, input, p);
    SortedMembers(c);
    FirstMatchRefinement(InputOf(c, p.inbound), u, p.ref.name, q);
  }

  // ---------------------------------------------------------------- the hop behind the inbound node

  lemma {:induction false} PolicyExitOrigin(input: Input, ps: seq<Policy>, o: Exit)
    requires o in PolicyExits(input, ps)
    ensures exists n :: o in TargetExit(input, n) && o.tag == OutboundTag(n)
  {
    var front, p := ps[..|ps| - 1], ps[|ps| - 1];
    if o in PolicyExits(input, front) {
      PolicyExitOrigin(input, front, o);
    } else {
      assert o in TargetExit(input, Egress(input, p));
    }
  }

  lemma {:induction false} PeerExitOrigin(input: Input, nodes: seq<Node>, o: Exit)
    requires o in PeerExits(input, nodes)
    ensures exists n :: n in nodes && o == RelayExit(input, n)
  {
    var front, n := nodes[..|nodes| - 1], nodes[|nodes| - 1];
    assert nodes == front + [n];
    if o in PeerExits(input, front) {
      PeerExitOrigin(input, front, o);
      var m :| m in front && o == RelayExit(input, m);
      assert m in nodes;
    } else {
      assert n in nodes;
    }
  }

  /** An emitted outbound is a peer's, a usable external's, a policy target's, the node's own, or direct. */
  lemma ExitOrigin(input: Input, o: Exit)
    requires o in ConfigOf(input).outbounds
    ensures || (exists n :: n in input.outboundNodes && o == RelayExit(input, n))
            || (exists e :: e in input.externals && o == RemoteExit(input, e))
            || (exists n :: o in TargetExit(input, n) && o.tag == OutboundTag(n))
            || o == Direct(OutboundTag(input.node.name)) || o == Direct(DIRECT)
  {
    var es := UsableExternals(input, input.externals);
    DedupFacts(AllExits(input));
    UsableExternalsSubset(input, input.externals);
    if o in PeerExits(input, input.outboundNodes) {
      PeerExitOrigin(input, input.outboundNodes, o);
    } else if o in ExternalExits(input, es) {
      var k :| 0 <= k < |es| && ExternalExits(input, es)[k] == o;
      assert es[k] in es;
    } else if o in PolicyExits(input, SortedPolicies(input)) {
      PolicyExitOrigin(input, SortedPolicies(input), o);
    }
  }

  /** The relay credential a node is configured with, wherever it is used. */
  lemma RelayCredCollected(c: Cluster, i: Node, m: Node)
    requires m in KnownNodes(c, i) || (m == i && HasRole(i, Outbound))
    ensures RelayCred(InputOf(c, i).nodeCreds, m.name) == RelayCred(c.nodeCreds, m.name)
  {
    var ns := KnownNodes(c, i);
    if m in ns {
      var k :| 0 <= k < |ns| && ns[k] == m;
      assert NodeNames(ns)[k] == m.name;
    }
  }

  lemma PeerIsUnique(c: Cluster, i: Node, m: Node)
    requires WellFormed(c) && m in InputOf(c, i).outboundNodes
    ensures var input := InputOf(c, i);
            && (forall n :: n in input.outboundNodes && n.name == m.name ==> n == m)
            && (forall e :: e in input.externals ==> e.name != m.name)
            && m.name in input.nodesByName && input.nodesByName[m.name] == m
            && RelayCred(input.nodeCreds, m.name) == RelayCred(c.nodeCreds, m.name)
  {
    KnownAreClusterResources(c, i);
    assert forall n :: n in InputOf(c, i).outboundNodes ==> n in KnownNodes(c, i);
    assert forall e :: e in InputOf(c, i).externals ==> e in KnownExternals(c, i);
    IndexNodesFacts(KnownNodes(c, i));
    RelayCredCollected(c, i, m);
  }

  lemma PeerExitShape(input: Input, m: Node, o: Exit)
    requires m.name != input.node.name && o in ConfigOf(input).outbounds && o.tag == OutboundTag(m.name)
    requires forall n :: n in input.outboundNodes && n.name == m.name ==> n == m
    requires forall e :: e in input.externals ==> e.name != m.name
    requires m.name in input.nodesByName && input.nodesByName[m.name] == m
    ensures o == RelayExit(input, m)
  {
    hide ConfigOf, RelayCred, OutboundTag, HasRequiredCreds, CredsOf;
    ExitOrigin(input, o);
    TagShapes(m.name);
    forall n ensures OutboundTag(n) == OutboundTag(m.name) ==> n == m.name { OutboundTagInjective(n, m.name); }
  }

  /** Every outbound tagged for a peer dials that peer's relay, with the peer's credential. */
  lemma PeerExitDialsRelay(c: Cluster, i: Node, m: Node, o: Exit)
    requires WellFormed(c) && m.name != i.name
    requires m in InputOf(c, i).outboundNodes && o in ConfigOf(InputOf(c, i)).outbounds && o.tag == OutboundTag(m.name)
    ensures var cred := RelayCred(c.nodeCreds, m.name);
            o == Socks(OutboundTag(m.name), m.address, m.relayPort, cred.username, cred.password)
  {
    assert InputOf(c, i).node == i;
    hide InputOf, ConfigOf, OutboundTag, RelayCred;
    PeerIsUnique(c, i, m);
    PeerExitShape(InputOf(c, i), m, o);
  }

  /** The relay a peer's outbound dials is there: the peer listens on that port for that credential. */
  lemma RelayHopAgrees(c: Cluster, i: Node, m: Node, o: Exit)
    requires WellFormed(c) && i in c.nodes && m in c.nodes && m.name != i.name && m.relayPort > 0
    requires m in InputOf(c, i).outboundNodes && o in ConfigOf(InputOf(c, i)).outbounds && o.tag == OutboundTag(m.name)
    ensures o.Socks? && o.server == m.address
    ensures Accepts(ConfigOf(InputOf(c, m)), "relay-socks5", "socks", false, o.port, map["username" := Plain(o.username), "password" := Plain(o.password)])
  {
    PeerExitDialsRelay(c, i, m, o);
    KnownAreClusterResources(c, i);
    assert m in KnownNodes(c, i);
    RelayCredCollected(c, m, m);
    RelayListens(InputOf(c, m));
    assert InputOf(c, m).node == m;
    hide InputOf, ConfigOf, RelayCred, Accepts;
  }

  lemma RelayListens(input: Input)
    requires HasRole(input.node, Outbound)
    ensures var cred := RelayCred(input.nodeCreds, input.node.name);
            Accepts(ConfigOf(input), "relay-socks5", "socks", false, EffectiveRelayPort(input.node),
                    map["username" := Plain(cred.username), "password" := Plain(cred.password)])
  {
    hide ClientListeners, AllRules, AllExits, Dedup, RouteFinal, RelayCred;
    var l := RelayListener(input);
    assert l in ConfigOf(input).inbounds && l.users[0] in l.users;
  }

  lemma ExternalExitShape(input: Input, e: External, o: Exit)
    requires o in ConfigOf(input).outbounds && o.tag == OutboundTag(e.name) && e.name != input.node.name
    requires forall n :: n in input.outboundNodes ==> n.name != e.name
    requires forall x :: x in input.externals && x.name == e.name ==> x == e
    requires e.name !in input.nodesByName && (e.name in input.externalsByName ==> input.externalsByName[e.name] == e)
    ensures o == RemoteExit(input, e)
  {
    hide ConfigOf, RelayCred, OutboundTag, HasRequiredCreds, CredsOf;
    ExitOrigin(input, o);
    TagShapes(e.name);
    forall n ensures OutboundTag(n) == OutboundTag(e.name) ==> n == e.name { OutboundTagInjective(n, e.name); }
  }

  lemma ExternalIsUnique(c: Cluster, i: Node, e: External)
    requires WellFormed(c) && i in c.nodes && e in c.externals
    ensures var input := InputOf(c, i);
            && input.node == i && e.name != i.name
            && (forall n :: n in input.outboundNodes ==> n.name != e.name)
            && (forall x :: x in input.externals && x.name == e.name ==> x == e)
            && e.name !in input.nodesByName && (e.name in input.externalsByName ==> input.externalsByName[e.name] == e)
  {
    KnownAreClusterResources(c, i);
    SortedMembers(c);
    FilterMembers(Peering(i), SortedNodes(c));
    FilterMembers(Discoverable(Taken(i, c.nodes), i), SortedExternals(c));
    assert InputOf(c, i).externals == Discovered(c, i) && InputOf(c, i).outboundNodes == Filter(Peering(i), SortedNodes(c));
    hide InputOf, Filter, SortedNodes, SortedExternals, KnownNodes, KnownExternals;
  }

  /** An outbound tagged for an external exists only where its secrets were collected. */
  lemma TaggedExternalIsKnown(c: Cluster, i: Node, e: External, o: Exit)
    requires WellFormed(c) && i in c.nodes && e in c.externals
    requires o in ConfigOf(InputOf(c, i)).outbounds && o.tag == OutboundTag(e.name)
    ensures e in KnownExternals(c, i)
  {
    var input := InputOf(c, i);
    ExternalIsUnique(c, i, e);
    TaggedByName(input, e.name, o);
    IndexExternalsFacts(KnownExternals(c, i));
    KnownAreClusterResources(c, i);
    assert input.externals == Discovered(c, i) && input.externalsByName == IndexExternals(KnownExternals(c, i));
    hide InputOf, ConfigOf, IndexExternals, Discovered;
    if x :| x in input.externals && x.name == e.name {
      assert x == e;
    }
  }

  lemma TaggedByName(input: Input, name: string, o: Exit)
    requires o in ConfigOf(input).outbounds && o.tag == OutboundTag(name) && name != input.node.name
    requires (forall n :: n in input.outboundNodes ==> n.name != name) && name !in input.nodesByName
    ensures (exists x :: x in input.externals && x.name == name) || name in input.externalsByName
  {
    hide ConfigOf, RelayCred, OutboundTag, HasRequiredCreds, CredsOf;
    ExitOrigin(input, o);
    TagShapes(name);
    forall n ensures OutboundTag(n) == OutboundTag(name) ==> n == name { OutboundTagInjective(n, name); }
  }

  /** Every outbound tagged for an external dials that external, with the cluster's secrets for it. */
  lemma ExternalExitDialsExternal(c: Cluster, i: Node, e: External, o: Exit)
    requires WellFormed(c) && i in c.nodes && e in c.externals
    requires o in ConfigOf(InputOf(c, i)).outbounds && o.tag == OutboundTag(e.name)
    ensures o == Remote(OutboundTag(e.name), e, if e.name in c.externalCreds then c.externalCreds[e.name] else map[])
  {
    TaggedExternalIsKnown(c, i, e, o);
    ExternalNamesMembers(KnownExternals(c, i), e.name);
    assert CredsOf(InputOf(c, i).externalCreds, e.name) == CredsOf(c.externalCreds, e.name);
    hide InputOf, ConfigOf, OutboundTag, KnownExternals;
    ExternalIsUnique(c, i, e);
    ExternalExitShape(InputOf(c, i), e, o);
  }
}
