/** The server-side config engine: one sing-box config per node, from a pre-filtered input. */
module Engine {

  import opened Ordering
  import opened Resources

  // ---------------------------------------------------------------- input and output

  datatype Input = Input(
    node: Node, users: seq<User>, userCreds: map<string, string>,
    outboundNodes: seq<Node>, policies: seq<Policy>,
    nodeCreds: map<string, NodeCredential>, nodesByName: map<string, Node>,
    externals: seq<External>, externalsByName: map<string, External>,
    externalCreds: map<string, SecretData>,
    denied: map<string, set<string>>, allowed: map<string, set<string>>)

  /** The hash functions stay symbolic: a derived secret is the pair it is a hash of. */
  datatype AuthValue = Plain(text: string) | Password(uuid: string, suffix: string) | Uuid(base: string, suffix: string)

  type Auth = map<string, AuthValue>

  datatype Listener = Listener(kind: string, tag: string, port: int, users: seq<Auth>, tls: bool)

  datatype Exit =
    | Socks(tag: string, server: string, port: int, username: string, password: string)
    | Remote(tag: string, eob: External, creds: SecretData)
    | Direct(tag: string)

  datatype Rule = Rule(inbound: seq<string>, authUser: seq<string>, criteria: Criteria, action: string, outbound: string)

  datatype Config = Config(inbounds: seq<Listener>, outbounds: seq<Exit>, rules: seq<Rule>, final: string)

  const DIRECT := "direct"

  // ---------------------------------------------------------------- small pure helpers

  function VirtualUser(user: string, target: string): string { user + "#" + target }

  function OutboundTag(name: string): string { "outbound-" + name }

  function EffectiveProtocol(n: Node): string {
    if n.inboundProtocol != "" then n.inboundProtocol else "hysteria2"
  }

  function InboundTag(n: Node): string { "inbound-" + EffectiveProtocol(n) }

  function EffectiveRelayPort(n: Node): int { if n.relayPort > 0 then n.relayPort else 10808 }

  function ProtocolPort(ps: seq<ProtocolConfig>, protocol: string): int {
    if ps == [] then 0 else if ps[0].protocol == protocol then ps[0].port else ProtocolPort(ps[1..], protocol)
  }

  predicate IsNodeAllowed(name: string, allowed: set<string>, denied: set<string>) {
    name !in denied && (allowed == {} || name in allowed)
  }

  function Lookup(m: map<string, set<string>>, k: string): set<string> { if k in m then m[k] else {} }

  function CredsOf(m: map<string, SecretData>, k: string): SecretData { if k in m then m[k] else map[] }

  function UuidOf(m: map<string, string>, k: string): string { if k in m then m[k] else "" }

  function RelayCred(m: map<string, NodeCredential>, k: string): NodeCredential {
    if k in m then m[k] else NodeCredential("", "")
  }

  predicate MayUse(input: Input, user: User, target: string) {
    IsNodeAllowed(target, Lookup(input.allowed, user.name), Lookup(input.denied, user.name))
  }

  predicate Has(creds: SecretData, key: string) { key in creds && creds[key] != "" }

  predicate HasRequiredCreds(e: External, creds: SecretData) {
    match e.protocol
    case "shadowsocks" => Has(creds, "method") && Has(creds, "password")
    case "tuic" => Has(creds, "uuid") && Has(creds, "password")
    case "trojan" => Has(creds, "password")
    case "anytls" => Has(creds, "password")
    case "hysteria2" => Has(creds, "password") && (e.obfs ==> Has(creds, "obfsPassword"))
    case _ => true
  }

  function DeriveAuth(protocol: string, uuid: string, target: string): Auth {
    match protocol
    case "vless" => map["uuid" := Uuid(uuid, target)]
    case "socks5" => map["username" := Plain(uuid), "password" := Password(uuid, target)]
    case "http" => map["username" := Plain(uuid), "password" := Password(uuid, target)]
    case "naive" => map["username" := Plain(uuid), "password" := Password(uuid, target)]
    case "tuic" => map["uuid" := Uuid(uuid, target), "password" := Password(uuid, target)]
    case _ => map["password" := Password(uuid, target)]
  }

  /** A listener entry: the derived secret, filed under the identity the router will see. */
  function ListenerAuth(protocol: string, uuid: string, target: string, identity: string): Auth {
    DeriveAuth(protocol, uuid, target)[(if protocol == "naive" then "username" else "name") := Plain(identity)]
  }

  predicate UsesTls(protocol: string) { protocol in ["hysteria2", "naive", "anytls", "tuic"] }

  function InboundEntry(protocol: string, port: int, users: seq<Auth>): Listener {
    Listener(if protocol == "socks5" then "socks" else protocol, "inbound-" + protocol, port, users, UsesTls(protocol))
  }

  function RelayExit(input: Input, n: Node): Exit {
    var cred := RelayCred(input.nodeCreds, n.name);
    Socks(OutboundTag(n.name), n.address, n.relayPort, cred.username, cred.password)
  }

  function RemoteExit(input: Input, e: External): Exit {
    Remote(OutboundTag(e.name), e, CredsOf(input.externalCreds, e.name))
  }

  /** The maps of an input are keyed by resource name. */
  predicate KeyedByName(input: Input) {
    && (forall k :: k in input.nodesByName ==> input.nodesByName[k].name == k)
    && (forall k :: k in input.externalsByName ==> input.externalsByName[k].name == k)
  }

  // ---------------------------------------------------------------- policy egress resolution

  ghost function NodeMatches(input: Input, p: Policy): set<string> {
    set k | k in input.nodesByName && HasRole(input.nodesByName[k], Outbound)
            && Matches(p.egress, k, input.nodesByName[k].labels)
  }

  ghost function ExternalMatches(input: Input, p: Policy): set<string> {
    set k | k in input.externalsByName && Matches(p.egress, k, input.externalsByName[k].labels)
  }

  ghost function Pick(s: set<string>): (x: string)
    requires s != {}
    ensures x in s
  {
    var x :| x in s; x
  }

  /** The one target the selector matches among both kinds of egress, or "" when there is not exactly one. */
  ghost function LocalEgress(input: Input, p: Policy): string {
    var ns, es := NodeMatches(input, p), ExternalMatches(input, p);
    if |ns| + |es| == 1 then Pick(ns + es) else ""
  }

  /** The target every builder uses for a route policy: the recorded one, else the resolved one. */
  ghost function Egress(input: Input, p: Policy): string {
    if p.resolvedEgress != "" then p.resolvedEgress else LocalEgress(input, p)
  }

  predicate EgressAvailable(input: Input, name: string) {
    if name in input.nodesByName then
      HasRole(input.nodesByName[name], Outbound) && input.nodesByName[name].relayPort > 0
    else
      name in input.externalsByName && HasRequiredCreds(input.externalsByName[name], CredsOf(input.externalCreds, name))
  }

  ghost predicate Usable(input: Input, name: string) { name != "" && EgressAvailable(input, name) }

  lemma SingletonUnion(ns: set<string>, es: set<string>, x: string)
    requires |ns| + |es| == 1 && x in ns + es
    ensures Pick(ns + es) == x
  {
    if x in ns {
      assert |ns - {x}| == |ns| - 1;
      assert ns == {x} && es == {};
    } else {
      assert |es - {x}| == |es| - 1;
      assert es == {x} && ns == {};
    }
  }

  /** Collects the outbound nodes the selector matches, in whatever order the map is walked. */
  method MatchingNodes(input: Input, p: Policy) returns (names: seq<string>)
    requires KeyedByName(input)
    ensures NoDup(names) && forall x :: x in names <==> x in NodeMatches(input, p)
  {
    names := [];
    var keys := IterationOrder(input.nodesByName.Keys);
    for i := 0 to |keys|
      invariant NoDup(names)
      invariant forall x :: x in names <==> x in NodeMatches(input, p) && x in keys[..i]
    {
      var n := input.nodesByName[keys[i]];
      assert keys[..i + 1] == keys[..i] + [keys[i]] && keys[i] !in keys[..i];
      if HasRole(n, Outbound) && Matches(p.egress, n.name, n.labels) {
        names := names + [n.name];
      }
    }
    assert keys[..|keys|] == keys;
  }

  method MatchingExternals(input: Input, p: Policy) returns (names: seq<string>)
    requires KeyedByName(input)
    ensures NoDup(names) && forall x :: x in names <==> x in ExternalMatches(input, p)
  {
    names := [];
    var keys := IterationOrder(input.externalsByName.Keys);
    for i := 0 to |keys|
      invariant NoDup(names)
      invariant forall x :: x in names <==> x in ExternalMatches(input, p) && x in keys[..i]
    {
      var e := input.externalsByName[keys[i]];
      assert keys[..i + 1] == keys[..i] + [keys[i]] && keys[i] !in keys[..i];
      if Matches(p.egress, e.name, e.labels) {
        names := names + [e.name];
      }
    }
    assert keys[..|keys|] == keys;
  }

  /** The answer does not depend on the order in which the maps are walked. */
  method ResolvePolicyEgressName(input: Input, p: Policy) returns (name: string)
    requires KeyedByName(input)
    ensures name == LocalEgress(input, p)
  {
    var ns := MatchingNodes(input, p);
    var es := MatchingExternals(input, p);
    var names := ns + es;
    NoDupCardinality(ns, NodeMatches(input, p));
    NoDupCardinality(es, ExternalMatches(input, p));
    if |names| != 1 {
      return "";
    }
    assert names[0] in ns || names[0] in es;
    SingletonUnion(NodeMatches(input, p), ExternalMatches(input, p), names[0]);
    return names[0];
  }

  method PolicyEgress(input: Input, p: Policy) returns (name: string)
    requires KeyedByName(input)
    ensures name == Egress(input, p)
  {
    name := p.resolvedEgress;
    if name == "" {
      name := ResolvePolicyEgressName(input, p);
    }
  }

  // ---------------------------------------------------------------- route rules

  /** The virtual users through which the input's users may reach a target. */
  function AuthUsers(input: Input, users: seq<User>, target: string): (r: seq<string>)
    ensures forall v :: v in r <==> exists u :: u in users && MayUse(input, u, target) && v == VirtualUser(u.name, target)
  {
    if users == [] then [] else
      var front, u := users[..|users| - 1], users[|users| - 1];
      AuthUsers(input, front, target) + (if MayUse(input, u, target) then [VirtualUser(u.name, target)] else [])
  }

  method PolicyAuthUsers(input: Input, target: string) returns (r: seq<string>)
    ensures r == AuthUsers(input, input.users, target)
  {
    r := [];
    for i := 0 to |input.users|
      invariant r == AuthUsers(input, input.users[..i], target)
    {
      assert input.users[..i + 1][..i] == input.users[..i];
      if MayUse(input, input.users[i], target) {
        r := r + [VirtualUser(input.users[i].name, target)];
      }
    }
    assert input.users[..|input.users|] == input.users;
  }

  ghost predicate Active(input: Input, p: Policy) {
    p.action == REJECT || Usable(input, Egress(input, p))
  }

  predicate GuardsEgress(p: Policy) { p.action == ROUTE && p.fallbackAction == REJECT }

  ghost function RulesOf(input: Input, p: Policy): seq<Rule> {
    var tag := InboundTag(input.node);
    if p.action == REJECT then
      [Rule([tag], [], p.criteria, REJECT, "")]
    else if !Usable(input, Egress(input, p)) then
      []
    else
      var name := Egress(input, p);
      var guards := AuthUsers(input, input.users, name);
      [Rule([tag], [], p.criteria, "", OutboundTag(name))]
      + (if GuardsEgress(p) && guards != [] then [Rule([], guards, NO_CRITERIA, REJECT, "")] else [])
  }

  ghost function PolicyRules(input: Input, ps: seq<Policy>): seq<Rule> {
    if ps == [] then [] else PolicyRules(input, ps[..|ps| - 1]) + RulesOf(input, ps[|ps| - 1])
  }

  method BuildPolicyRules(input: Input, ps: seq<Policy>) returns (rules: seq<Rule>)
    requires KeyedByName(input)
    ensures rules == PolicyRules(input, ps)
  {
    rules := [];
    for i := 0 to |ps|
      invariant rules == PolicyRules(input, ps[..i])
    {
      var p := ps[i];
      assert ps[..i + 1][..i] == ps[..i];
      ghost var before := rules;
      if p.action == REJECT {
        rules := rules + [Rule([InboundTag(input.node)], [], p.criteria, REJECT, "")];
      } else {
        var name := PolicyEgress(input, p);
        if name != "" && EgressAvailable(input, name) {
          rules := rules + [Rule([InboundTag(input.node)], [], p.criteria, "", OutboundTag(name))];
          if GuardsEgress(p) {
            var guards := PolicyAuthUsers(input, name);
            if |guards| > 0 {
              rules := rules + [Rule([], guards, NO_CRITERIA, REJECT, "")];
            }
          }
        }
      }
      assert rules == before + RulesOf(input, p);
    }
    assert ps[..|ps|] == ps;
  }

  // ---------------------------------------------------------------- provisioned targets

  function AddNew(names: seq<string>, x: string): seq<string> { if x in names then names else names + [x] }

  /** Appends the names not yet present, in order. */
  function Extend(names: seq<string>, xs: seq<string>): seq<string> {
    if xs == [] then names else AddNew(Extend(names, xs[..|xs| - 1]), xs[|xs| - 1])
  }

  lemma ExtendSnoc(names: seq<string>, xs: seq<string>, x: string)
    ensures Extend(names, xs + [x]) == AddNew(Extend(names, xs), x)
  {
    assert (xs + [x])[..|xs|] == xs;
  }

  function PeerNames(nodes: seq<Node>): (r: seq<string>)
    ensures forall x :: x in r <==> exists n :: n in nodes && n.relayPort != 0 && n.name == x
  {
    if nodes == [] then [] else
      PeerNames(nodes[..|nodes| - 1])
      + (if nodes[|nodes| - 1].relayPort != 0 then [nodes[|nodes| - 1].name] else [])
  }

  ghost function PolicyTargets(input: Input, ps: seq<Policy>): (r: seq<string>)
    ensures forall x :: x in r <==> exists p :: p in ps && p.action == ROUTE && Usable(input, Egress(input, p)) && Egress(input, p) == x
  {
    if ps == [] then [] else
      var p := ps[|ps| - 1];
      PolicyTargets(input, ps[..|ps| - 1])
      + (if p.action == ROUTE && Usable(input, Egress(input, p)) then [Egress(input, p)] else [])
  }

  predicate CollidesWithNode(input: Input, name: string) {
    name == input.node.name || name in input.nodesByName || exists n :: n in input.outboundNodes && n.name == name
  }

  predicate ExternalUsable(input: Input, e: External) {
    !CollidesWithNode(input, e.name) && HasRequiredCreds(e, CredsOf(input.externalCreds, e.name))
  }

  function NamesOf(es: seq<External>): set<string> { set e | e in es :: e.name }

  /** The usable externals of a list, the first of each name. */
  function UsableExternals(input: Input, es: seq<External>): seq<External> {
    if es == [] then [] else
      var front, e := es[..|es| - 1], es[|es| - 1];
      UsableExternals(input, front)
      + (if e.name !in NamesOf(front) && ExternalUsable(input, e) then [e] else [])
  }

  method ResolveExternalOutbounds(input: Input) returns (r: seq<External>)
    ensures r == UsableExternals(input, input.externals)
  {
    r := [];
    var seen: set<string> := {};
    for i := 0 to |input.externals|
      invariant seen == NamesOf(input.externals[..i])
      invariant r == UsableExternals(input, input.externals[..i])
    {
      var e := input.externals[i];
      assert input.externals[..i + 1][..i] == input.externals[..i];
      assert input.externals[..i + 1] == input.externals[..i] + [e];
      if e.name !in seen {
        if ExternalUsable(input, e) {
          r := r + [e];
        }
        seen := seen + {e.name};
      }
    }
    assert input.externals[..|input.externals|] == input.externals;
  }

  function ExternalNames(es: seq<External>): (r: seq<string>)
    ensures |r| == |es| && forall i :: 0 <= i < |es| ==> r[i] == es[i].name
  {
    seq(|es|, i requires 0 <= i < |es| => es[i].name)
  }

  ghost function NodeTargets(input: Input, includeSelf: bool): seq<string> {
    var named := Extend(Extend([], PeerNames(input.outboundNodes)), PolicyTargets(input, input.policies));
    if includeSelf then AddNew(named, input.node.name) else named
  }

  /** Every outbound target that gets virtual users, in the order the engine meets them. */
  ghost function Targets(input: Input, includeSelf: bool): seq<string> {
    Extend(NodeTargets(input, includeSelf), ExternalNames(UsableExternals(input, input.externals)))
  }

  function ListenerUsersFor(input: Input, users: seq<User>, target: string): seq<Auth> {
    if users == [] then [] else
      var front, u := users[..|users| - 1], users[|users| - 1];
      ListenerUsersFor(input, front, target)
      + (if MayUse(input, u, target)
         then [ListenerAuth(EffectiveProtocol(input.node), UuidOf(input.userCreds, u.name), target, VirtualUser(u.name, target))]
         else [])
  }

  function ListenerUsers(input: Input, targets: seq<string>): seq<Auth> {
    if targets == [] then [] else
      ListenerUsers(input, targets[..|targets| - 1]) + ListenerUsersFor(input, input.users, targets[|targets| - 1])
  }

  function RouteListeners(input: Input, targets: seq<string>): seq<Listener> {
    var protocol := EffectiveProtocol(input.node);
    var port := ProtocolPort(input.node.protocols, protocol);
    var users := ListenerUsers(input, targets);
    if port != 0 && users != [] then [InboundEntry(protocol, port, users)] else []
  }

  function GenericRule(input: Input, target: string): seq<Rule> {
    var users := AuthUsers(input, input.users, target);
    if users == [] then [] else [Rule([], users, NO_CRITERIA, "", OutboundTag(target))]
  }

  function GenericRules(input: Input, targets: seq<string>): seq<Rule> {
    if targets == [] then [] else
      GenericRules(input, targets[..|targets| - 1]) + GenericRule(input, targets[|targets| - 1])
  }

  method AddPeers(input: Input) returns (targets: seq<string>)
    ensures targets == Extend([], PeerNames(input.outboundNodes))
  {
    targets := [];
    var seen: set<string> := {};
    for i := 0 to |input.outboundNodes|
      invariant seen == set x | x in targets
      invariant targets == Extend([], PeerNames(input.outboundNodes[..i]))
    {
      var n := input.outboundNodes[i];
      ghost var prior := PeerNames(input.outboundNodes[..i]);
      assert input.outboundNodes[..i + 1][..i] == input.outboundNodes[..i];
      if n.relayPort != 0 {
        ExtendSnoc([], prior, n.name);
        assert PeerNames(input.outboundNodes[..i + 1]) == prior + [n.name];
        if n.name !in seen {
          seen := seen + {n.name};
          targets := targets + [n.name];
        }
      } else {
        assert PeerNames(input.outboundNodes[..i + 1]) == prior;
      }
    }
    assert input.outboundNodes[..|input.outboundNodes|] == input.outboundNodes;
  }

  /** Policies are walked in the order they were listed, not in the order they run. */
  method AddPolicyTargets(input: Input, base: seq<string>) returns (targets: seq<string>)
    requires KeyedByName(input)
    ensures targets == Extend(base, PolicyTargets(input, input.policies))
  {
    targets := base;
    var seen := set x | x in base;
    for i := 0 to |input.policies|
      invariant seen == set x | x in targets
      invariant targets == Extend(base, PolicyTargets(input, input.policies[..i]))
    {
      var p := input.policies[i];
      ghost var prior := PolicyTargets(input, input.policies[..i]);
      assert input.policies[..i + 1][..i] == input.policies[..i];
      var adds := false;
      if p.action == ROUTE {
        var name := PolicyEgress(input, p);
        adds := name != "" && EgressAvailable(input, name);
        if adds {
          ExtendSnoc(base, prior, name);
          assert PolicyTargets(input, input.policies[..i + 1]) == prior + [name];
          if name !in seen {
            seen := seen + {name};
            targets := targets + [name];
          }
        }
      }
      assert !adds ==> PolicyTargets(input, input.policies[..i + 1]) == prior;
    }
    assert input.policies[..|input.policies|] == input.policies;
  }

  method AddExternals(base: seq<string>, es: seq<External>) returns (targets: seq<string>)
    ensures targets == Extend(base, ExternalNames(es))
  {
    targets := base;
    var seen := set x | x in base;
    ghost var names := ExternalNames(es);
    for i := 0 to |es|
      invariant seen == set x | x in targets
      invariant targets == Extend(base, names[..i])
    {
      assert names[..i + 1][..i] == names[..i];
      if es[i].name !in seen {
        seen := seen + {es[i].name};
        targets := targets + [es[i].name];
      }
    }
    assert names[..|es|] == names;
  }

  method RouteTargets(input: Input, includeSelf: bool) returns (targets: seq<string>)
    requires KeyedByName(input)
    ensures targets == Targets(input, includeSelf)
  {
    targets := AddPeers(input);
    targets := AddPolicyTargets(input, targets);
    if includeSelf && input.node.name !in targets {
      targets := targets + [input.node.name];
    }
    var es := ResolveExternalOutbounds(input);
    targets := AddExternals(targets, es);
  }

  method BuildListenerUsersFor(input: Input, target: string) returns (users: seq<Auth>)
    ensures users == ListenerUsersFor(input, input.users, target)
  {
    users := [];
    var protocol := EffectiveProtocol(input.node);
    for j := 0 to |input.users|
      invariant users == ListenerUsersFor(input, input.users[..j], target)
    {
      var u := input.users[j];
      assert input.users[..j + 1][..j] == input.users[..j];
      if MayUse(input, u, target) {
        users := users + [ListenerAuth(protocol, UuidOf(input.userCreds, u.name), target, VirtualUser(u.name, target))];
      }
    }
    assert input.users[..|input.users|] == input.users;
  }

  method BuildRouteListeners(input: Input, targets: seq<string>) returns (inbounds: seq<Listener>)
    ensures inbounds == RouteListeners(input, targets)
  {
    var protocol := EffectiveProtocol(input.node);
    var port := ProtocolPort(input.node.protocols, protocol);
    inbounds := [];
    if port != 0 {
      var users: seq<Auth> := [];
      for i := 0 to |targets|
        invariant users == ListenerUsers(input, targets[..i])
      {
        var more := BuildListenerUsersFor(input, targets[i]);
        users := users + more;
        assert targets[..i + 1][..i] == targets[..i];
      }
      assert targets[..|targets|] == targets;
      if |users| > 0 {
        inbounds := [InboundEntry(protocol, port, users)];
      }
    }
  }

  method BuildGenericRules(input: Input, targets: seq<string>) returns (rules: seq<Rule>)
    ensures rules == GenericRules(input, targets)
  {
    rules := [];
    for i := 0 to |targets|
      invariant rules == GenericRules(input, targets[..i])
    {
      var authUsers := PolicyAuthUsers(input, targets[i]);
      assert targets[..i + 1][..i] == targets[..i];
      if |authUsers| > 0 {
        rules := rules + [Rule([], authUsers, NO_CRITERIA, "", OutboundTag(targets[i]))];
      }
    }
    assert targets[..|targets|] == targets;
  }

  method BuildRouteInbounds(input: Input, includeSelf: bool) returns (inbounds: seq<Listener>, rules: seq<Rule>)
    requires KeyedByName(input)
    ensures inbounds == RouteListeners(input, Targets(input, includeSelf))
    ensures rules == GenericRules(input, Targets(input, includeSelf))
  {
    var targets := RouteTargets(input, includeSelf);
    inbounds := BuildRouteListeners(input, targets);
    rules := BuildGenericRules(input, targets);
  }

  // ---------------------------------------------------------------- listeners without relay

  function PlainUsers(input: Input, users: seq<User>): seq<Auth> {
    if users == [] then [] else
      var u := users[|users| - 1];
      PlainUsers(input, users[..|users| - 1])
      + [ListenerAuth(EffectiveProtocol(input.node), UuidOf(input.userCreds, u.name), input.node.name, u.name)]
  }

  function UserListeners(input: Input): seq<Listener> {
    var protocol := EffectiveProtocol(input.node);
    var port := ProtocolPort(input.node.protocols, protocol);
    var users := PlainUsers(input, input.users);
    if port != 0 && users != [] then [InboundEntry(protocol, port, users)] else []
  }

  method BuildUserInbounds(input: Input) returns (r: seq<Listener>)
    ensures r == UserListeners(input)
  {
    var protocol := EffectiveProtocol(input.node);
    var port := ProtocolPort(input.node.protocols, protocol);
    if port == 0 {
      return [];
    }
    var users: seq<Auth> := [];
    for i := 0 to |input.users|
      invariant users == PlainUsers(input, input.users[..i])
    {
      var u := input.users[i];
      assert input.users[..i + 1][..i] == input.users[..i];
      users := users + [ListenerAuth(protocol, UuidOf(input.userCreds, u.name), input.node.name, u.name)];
    }
    assert input.users[..|input.users|] == input.users;
    r := if |users| == 0 then [] else [InboundEntry(protocol, port, users)];
  }

  function RelayListener(input: Input): Listener {
    var cred := RelayCred(input.nodeCreds, input.node.name);
    Listener("socks", "relay-socks5", EffectiveRelayPort(input.node),
             [map["username" := Plain(cred.username), "password" := Plain(cred.password)]], false)
  }

  // ---------------------------------------------------------------- outbounds

  predicate PairAllowed(inbound: Node, target: string, targetAllows: seq<string>) {
    && (targetAllows == [] || inbound.name in targetAllows)
    && (inbound.allowedOutbounds == [] || target in inbound.allowedOutbounds)
  }

  function PeerExits(input: Input, nodes: seq<Node>): seq<Exit> {
    if nodes == [] then [] else
      var n := nodes[|nodes| - 1];
      PeerExits(input, nodes[..|nodes| - 1])
      + (if PairAllowed(input.node, n.name, n.allowedInbounds) && n.relayPort != 0 then [RelayExit(input, n)] else [])
  }

  method BuildOutboundNodeOutbounds(input: Input) returns (r: seq<Exit>)
    ensures r == PeerExits(input, input.outboundNodes)
  {
    r := [];
    for i := 0 to |input.outboundNodes|
      invariant r == PeerExits(input, input.outboundNodes[..i])
    {
      var n := input.outboundNodes[i];
      assert input.outboundNodes[..i + 1][..i] == input.outboundNodes[..i];
      if PairAllowed(input.node, n.name, n.allowedInbounds) && n.relayPort != 0 {
        r := r + [RelayExit(input, n)];
      }
    }
    assert input.outboundNodes[..|input.outboundNodes|] == input.outboundNodes;
  }

  function ExternalExits(input: Input, es: seq<External>): (r: seq<Exit>)
    ensures |r| == |es| && forall i :: 0 <= i < |es| ==> r[i] == RemoteExit(input, es[i])
  {
    seq(|es|, i requires 0 <= i < |es| => RemoteExit(input, es[i]))
  }

  method BuildExternalOutbounds(input: Input) returns (r: seq<Exit>)
    ensures r == ExternalExits(input, UsableExternals(input, input.externals))
  {
    var es := ResolveExternalOutbounds(input);
    r := [];
    for i := 0 to |es|
      invariant |r| == i && forall j :: 0 <= j < i ==> r[j] == RemoteExit(input, es[j])
    {
      r := r + [RemoteExit(input, es[i])];
    }
  }

  /** The outbound a policy target gets, if it has one. */
  function TargetExit(input: Input, name: string): seq<Exit> {
    if name in input.nodesByName then
      var n := input.nodesByName[name];
      if n.relayPort == 0 then [] else
        var cred := RelayCred(input.nodeCreds, name);
        [Socks(OutboundTag(name), n.address, n.relayPort, cred.username, cred.password)]
    else if name in input.externalsByName && HasRequiredCreds(input.externalsByName[name], CredsOf(input.externalCreds, name)) then
      [Remote(OutboundTag(name), input.externalsByName[name], CredsOf(input.externalCreds, name))]
    else
      []
  }

  ghost function RouteEgresses(input: Input, ps: seq<Policy>): set<string> {
    set p | p in ps && p.action == ROUTE && Egress(input, p) != "" :: Egress(input, p)
  }

  ghost function PolicyExits(input: Input, ps: seq<Policy>): seq<Exit> {
    if ps == [] then [] else
      var front, p := ps[..|ps| - 1], ps[|ps| - 1];
      PolicyExits(input, front)
      + (if p.action == ROUTE && Egress(input, p) != "" && Egress(input, p) !in RouteEgresses(input, front)
         then TargetExit(input, Egress(input, p)) else [])
  }

  method BuildPolicyOutbounds(input: Input, ps: seq<Policy>) returns (r: seq<Exit>)
    requires KeyedByName(input)
    ensures r == PolicyExits(input, ps)
  {
    r := [];
    var seen: set<string> := {};
    for i := 0 to |ps|
      invariant seen == RouteEgresses(input, ps[..i])
      invariant r == PolicyExits(input, ps[..i])
    {
      var p := ps[i];
      assert ps[..i + 1][..i] == ps[..i];
      assert ps[..i + 1] == ps[..i] + [p];
      if p.action == ROUTE {
        var name := PolicyEgress(input, p);
        if name != "" && name !in seen {
          seen := seen + {name};
          r := r + TargetExit(input, name);
        }
      }
    }
    assert ps[..|ps|] == ps;
  }

  function Tags(os: seq<Exit>): set<string> { set o | o in os :: o.tag }

  function Dedup(os: seq<Exit>): seq<Exit> {
    if os == [] then [] else
      var front, o := os[..|os| - 1], os[|os| - 1];
      Dedup(front) + (if o.tag in Tags(front) then [] else [o])
  }

  method DeduplicateByTag(os: seq<Exit>) returns (r: seq<Exit>)
    ensures r == Dedup(os)
  {
    r := [];
    var seen: set<string> := {};
    for i := 0 to |os|
      invariant seen == Tags(os[..i]) && r == Dedup(os[..i])
    {
      assert os[..i + 1][..i] == os[..i];
      assert os[..i + 1] == os[..i] + [os[i]];
      if os[i].tag !in seen {
        seen := seen + {os[i].tag};
        r := r + [os[i]];
      }
    }
    assert os[..|os|] == os;
  }

  function RouteFinal(os: seq<Exit>): string {
    if os == [] then DIRECT
    else if os[0].tag != DIRECT && os[0].tag != "" then os[0].tag
    else RouteFinal(os[1..])
  }

  // ---------------------------------------------------------------- the whole config

  predicate IsSelfExit(n: Node) { HasRole(n, Inbound) && HasRole(n, Outbound) }

  predicate SelfExitAllowed(n: Node) { n.allowedOutbounds == [] || n.name in n.allowedOutbounds }

  ghost function SortedPolicies(input: Input): seq<Policy> { SortBy(input.policies, PolicyLe) }

  ghost predicate Relays(input: Input) {
    || input.outboundNodes != [] || input.policies != [] || IsSelfExit(input.node)
    || UsableExternals(input, input.externals) != []
  }

  ghost function ClientListeners(input: Input): seq<Listener> {
    var routed := RouteListeners(input, Targets(input, IsSelfExit(input.node)));
    if !Relays(input) || (input.policies != [] && routed == []) then UserListeners(input) else routed
  }

  ghost function AllRules(input: Input): seq<Rule> {
    PolicyRules(input, SortedPolicies(input))
    + (if HasRole(input.node, Inbound) && Relays(input) then GenericRules(input, Targets(input, IsSelfExit(input.node))) else [])
  }

  ghost function AllExits(input: Input): seq<Exit> {
    (if HasRole(input.node, Inbound) then
       PeerExits(input, input.outboundNodes)
       + ExternalExits(input, UsableExternals(input, input.externals))
       + PolicyExits(input, SortedPolicies(input))
       + (if IsSelfExit(input.node) && SelfExitAllowed(input.node) then [Direct(OutboundTag(input.node.name))] else [])
     else [])
    + [Direct(DIRECT)]
  }

  ghost function ConfigOf(input: Input): Config {
    var outbounds := Dedup(AllExits(input));
    var rules := AllRules(input);
    Config(
      (if HasRole(input.node, Inbound) then ClientListeners(input) else [])
      + (if HasRole(input.node, Outbound) then [RelayListener(input)] else []),
      outbounds, rules, if rules != [] then DIRECT else RouteFinal(outbounds))
  }

  method BuildInboundSide(input: Input) returns (inbounds: seq<Listener>, rules: seq<Rule>)
    requires KeyedByName(input) && HasRole(input.node, Inbound)
    ensures inbounds == ClientListeners(input)
    ensures rules == if Relays(input) then GenericRules(input, Targets(input, IsSelfExit(input.node))) else []
  {
    var usable := ResolveExternalOutbounds(input);
    var relays := |input.outboundNodes| > 0 || |input.policies| > 0 || IsSelfExit(input.node) || |usable| > 0;
    if |input.policies| > 0 {
      inbounds, rules := BuildRouteInbounds(input, IsSelfExit(input.node));
      if |inbounds| == 0 {
        inbounds := BuildUserInbounds(input);
      }
    } else if relays {
      inbounds, rules := BuildRouteInbounds(input, IsSelfExit(input.node));
    } else {
      rules := [];
      inbounds := BuildUserInbounds(input);
    }
  }

  method BuildExits(input: Input, policies: seq<Policy>) returns (outbounds: seq<Exit>)
    requires KeyedByName(input) && policies == SortedPolicies(input)
    ensures outbounds == Dedup(AllExits(input))
  {
    outbounds := [];
    if HasRole(input.node, Inbound) {
      var peerExits := BuildOutboundNodeOutbounds(input);
      var externalExits := BuildExternalOutbounds(input);
      var policyExits := BuildPolicyOutbounds(input, policies);
      outbounds := peerExits + externalExits + policyExits;
      if IsSelfExit(input.node) && SelfExitAllowed(input.node) {
        outbounds := outbounds + [Direct(OutboundTag(input.node.name))];
      }
    }
    outbounds := outbounds + [Direct(DIRECT)];
    assert outbounds == AllExits(input);
    outbounds := DeduplicateByTag(outbounds);
  }

  method Compute(input: Input) returns (config: Config)
    requires KeyedByName(input)
    ensures config == ConfigOf(input)
  {
    hide SortBy, PolicyRules, GenericRules, ClientListeners, Targets, AllExits, Dedup, Relays, RouteFinal;
    var policies := SortBy(input.policies, PolicyLe);
    var rules := BuildPolicyRules(input, policies);
    var inbounds: seq<Listener> := [];
    if HasRole(input.node, Inbound) {
      var ibs, rls := BuildInboundSide(input);
      inbounds := ibs;
      rules := rules + rls;
    }
    var outbounds := BuildExits(input, policies);
    if HasRole(input.node, Outbound) {
      inbounds := inbounds + [RelayListener(input)];
    }
    config := Config(inbounds, outbounds, rules, if |rules| > 0 then DIRECT else RouteFinal(outbounds));
  }
}
