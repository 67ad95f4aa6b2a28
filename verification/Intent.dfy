/** What the resources of a cluster ask for, read directly off their fields. */
module Intent {

  import opened Resources

  // ---------------------------------------------------------------- names, whitelists, selectors

  /** The order of names: at the first difference the smaller character, or the end of the shorter name, comes first. */
  ghost predicate Before(a: string, b: string) {
    exists k: nat :: k <= |a| && k < |b| && a[..k] == b[..k] && (k == |a| || a[k] < b[k])
  }

  /** An empty whitelist admits everyone. */
  predicate Admitted(whitelist: seq<string>, name: string) { whitelist == [] || name in whitelist }

  predicate Picks(s: Selector, name: string, labels: Labels) {
    s.valid && s.admits(labels) && (|s.matchNames| > 0 ==> name in s.matchNames)
  }

  // ---------------------------------------------------------------- policies

  /** Lower priorities come first, and among equal ones the earlier name. */
  ghost predicate Precedes(p: Policy, r: Policy) {
    p.priority < r.priority || (p.priority == r.priority && Before(p.name, r.name))
  }

  /** Criteria are given and parse, or there are none and a fallback is. */
  predicate Sound(p: Policy) {
    if p.criteria.domain == [] && p.criteria.domainSuffix == [] && p.criteria.domainRegex == [] && p.criteria.ipCidr == [] && p.criteria.ruleSet == []
    then p.fallbackAction != "" else p.criteriaParse
  }

  /** The outbound node or external of that name is one the policy selects. */
  ghost predicate Selects(c: Cluster, p: Policy, name: string) {
    || (exists n :: n in c.nodes && n.name == name && Outbound in n.roles && Picks(p.egress, n.name, n.labels))
    || (exists e :: e in c.externals && e.name == name && Picks(p.egress, e.name, e.labels))
  }

  /** The one target the policy selects in the whole cluster. */
  ghost predicate Sole(c: Cluster, p: Policy, name: string) {
    Selects(c, p, name) && forall x :: Selects(c, p, x) ==> x == name
  }

  // ---------------------------------------------------------------- who reaches what

  ghost predicate NearNode(c: Cluster, i: Node, n: Node) {
    && n in c.nodes && n.name != i.name && Outbound in n.roles && n.region == i.region
    && Admitted(n.allowedInbounds, i.name) && Admitted(i.allowedOutbounds, n.name)
  }

  ghost predicate NearExternal(c: Cluster, i: Node, e: External) {
    && e in c.externals && e.region != "" && e.region == i.region
    && Admitted(e.allowedInbounds, i.name) && Admitted(i.allowedOutbounds, e.name)
  }

  /** The secrets an external's protocol cannot do without. */
  function Required(e: External): set<string> {
    if e.protocol == "shadowsocks" then {"method", "password"}
    else if e.protocol == "tuic" then {"uuid", "password"}
    else if e.protocol == "trojan" || e.protocol == "anytls" then {"password"}
    else if e.protocol == "hysteria2" then (if e.obfs then {"password", "obfsPassword"} else {"password"})
    else {}
  }

  ghost predicate Furnished(c: Cluster, e: External) {
    forall k :: k in Required(e) ==> e.name in c.externalCreds && k in c.externalCreds[e.name] && c.externalCreds[e.name][k] != ""
  }

  /** A target the node gives its users: a peer with a relay port, itself, or a furnished external. */
  ghost predicate Reaches(c: Cluster, i: Node, name: string) {
    || (exists n :: NearNode(c, i, n) && n.name == name && n.relayPort > 0)
    || (name == i.name && Outbound in i.roles)
    || (exists e :: NearExternal(c, i, e) && e.name == name && Furnished(c, e))
  }

  /** The user's group, if there is one, does not deny the target and, if it lists any, lists it. */
  predicate Grants(c: Cluster, u: User, name: string) {
    u.groupRef != "" && u.groupRef in c.groups ==>
      var g := c.groups[u.groupRef];
      name !in g.deniedNodes && (|g.allowedNodes| > 0 ==> name in g.allowedNodes)
  }

  // ---------------------------------------------------------------- which policies govern a node

  /** The node may follow the policy to that target: its own, or one in its region that passes both whitelists. */
  ghost predicate Near(c: Cluster, i: Node, name: string) {
    || (name == i.name && Outbound in i.roles)
    || (exists n :: NearNode(c, i, n) && n.name == name)
    || (exists e :: NearExternal(c, i, e) && e.name == name)
  }

  ghost predicate Governs(c: Cluster, i: Node, p: Policy) {
    && p in c.policies && Inbound in i.roles && Picks(p.ingress, i.name, i.labels) && Sound(p)
    && (p.action == "reject" || (p.action == "route" && exists t :: t != "" && Sole(c, p, t) && Near(c, i, t)))
  }

  /** The node can send traffic of a policy to that target: it has a relay port, or its secrets are complete. */
  ghost predicate Works(c: Cluster, i: Node, name: string) {
    || (name == i.name && Outbound in i.roles && i.relayPort > 0)
    || (exists n :: NearNode(c, i, n) && n.name == name && n.relayPort > 0)
    || (exists e :: NearExternal(c, i, e) && e.name == name && Furnished(c, e))
  }

  // ---------------------------------------------------------------- what a user is offered

  function ProtocolOf(i: Node): string { if i.inboundProtocol == "" then "hysteria2" else i.inboundProtocol }

  /** Clients can enter at the node: it is inbound and not reported down, serves its protocol, and its address prints. */
  ghost predicate Enterable(i: Node) {
    && Inbound in i.roles && i.status.ready != Some(false) && ':' !in i.address
    && exists p :: p in i.protocols && p.protocol == ProtocolOf(i)
  }

  ghost predicate Online(c: Cluster, name: string) {
    forall n :: n in c.nodes && n.name == name ==> n.status.ready != Some(false)
  }

  ghost predicate InGroup(c: Cluster, name: string, g: string) {
    || (exists n :: n in c.nodes && n.name == name && Outbound in n.roles && g in n.clientGroups)
    || (exists e :: e in c.externals && e.name == name && g in e.clientGroups)
  }

  /** The target is the one some route policy selects. */
  ghost predicate Claimed(c: Cluster, name: string) { exists p :: p in c.policies && p.action == "route" && Sole(c, p, name) }

  /** The user can be offered the target through the node. */
  ghost predicate Offered(c: Cluster, u: User, i: Node, name: string) {
    && Enterable(i) && Reaches(c, i, name) && Grants(c, u, name) && Online(c, name)
    && (name == i.name ==> Admitted(i.allowedOutbounds, name))
  }

  /** The group the offer is listed in: one of the target's own, and only ai when a policy claims the target. */
  ghost predicate OfferedIn(c: Cluster, u: User, i: Node, name: string, g: string) {
    Offered(c, u, i, name) && g in {"hk", "jp", "us", "ai"} && InGroup(c, name, g) && (g == "ai" || !Claimed(c, name))
  }

  /** The tag a client knows the way by. */
  function WayTag(i: Node, name: string): string { if name == i.name then name else name + "#" + i.name }
}
