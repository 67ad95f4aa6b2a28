/** The custom resources the operator compiles, reduced to the fields it reads. */
module Resources {

  import opened Ordering

  datatype Option<+T> = None | Some(value: T)

  type Labels = map<string, string>

  datatype Role = Inbound | Outbound

  datatype ProtocolConfig = ProtocolConfig(protocol: string, port: int)

  /** `ready` is the NodeReady condition, when the controller has set one. */
  datatype NodeStatus = NodeStatus(entryEndpoints: seq<string>, tlsServerName: string, ready: Option<bool>)

  datatype Node = Node(
    name: string, labels: Labels, address: string, region: string,
    clientGroups: seq<string>, roles: seq<Role>, protocols: seq<ProtocolConfig>,
    inboundProtocol: string, relayPort: int,
    allowedInbounds: seq<string>, allowedOutbounds: seq<string>, status: NodeStatus)

  /** `obfs` is spec.hysteria2.obfs; the other rendering options play no part here. */
  datatype External = External(
    name: string, labels: Labels, protocol: string, server: string, port: int, obfs: bool,
    region: string, clientGroups: seq<string>, allowedInbounds: seq<string>)

  datatype User = User(name: string, groupRef: string)

  datatype Group = Group(allowedNodes: seq<string>, deniedNodes: seq<string>)

  /** The Kubernetes label-selector library is known only by its answers:
      `valid` when the selector parses, `admits` what the parsed selector accepts. */
  datatype Selector = Selector(matchNames: seq<string>, valid: bool, admits: Labels -> bool)

  predicate Matches(s: Selector, name: string, labels: Labels) {
    (s.matchNames == [] || name in s.matchNames) && s.valid && s.admits(labels)
  }

  datatype Criteria = Criteria(
    domain: seq<string>, domainSuffix: seq<string>, domainRegex: seq<string>,
    ipCidr: seq<string>, ruleSet: seq<string>)

  const NO_CRITERIA := Criteria([], [], [], [], [])

  const ROUTE := "route"
  const REJECT := "reject"

  /** `criteriaParse` tells whether every regular expression compiles and every CIDR parses. */
  datatype Policy = Policy(
    name: string, ingress: Selector, egress: Selector,
    criteria: Criteria, criteriaParse: bool,
    action: string, priority: int, fallbackAction: string, resolvedEgress: string)

  predicate CriteriaValid(p: Policy) {
    if p.criteria == NO_CRITERIA then p.fallbackAction != "" else p.criteriaParse
  }

  datatype NodeCredential = NodeCredential(username: string, password: string)

  type SecretData = map<string, string>

  /** One consistent reading of everything the API server holds in a namespace. */
  datatype Cluster = Cluster(
    nodes: seq<Node>, externals: seq<External>, users: seq<User>,
    groups: map<string, Group>, policies: seq<Policy>,
    nodeCreds: map<string, NodeCredential>, userCreds: map<string, string>,
    externalCreds: map<string, SecretData>)

  predicate HasRole(n: Node, r: Role) {
    r in n.roles
  }

  predicate NodeLe(a: Node, b: Node) { StrLe(a.name, b.name) }
  predicate ExternalLe(a: External, b: External) { StrLe(a.name, b.name) }
  predicate UserLe(a: User, b: User) { StrLe(a.name, b.name) }

  /** Ascending priority, then ascending name. */
  predicate PolicyLe(a: Policy, b: Policy) {
    if a.priority != b.priority then a.priority < b.priority else StrLe(a.name, b.name)
  }

  ghost predicate DistinctNodes(s: seq<Node>) {
    forall a, b :: a in s && b in s && a.name == b.name ==> a == b
  }
  ghost predicate DistinctExternals(s: seq<External>) {
    forall a, b :: a in s && b in s && a.name == b.name ==> a == b
  }
  ghost predicate DistinctPolicies(s: seq<Policy>) {
    forall a, b :: a in s && b in s && a.name == b.name ==> a == b
  }

  lemma NameOrders()
    ensures IsOrder(NodeLe) && IsOrder(ExternalLe) && IsOrder(UserLe)
  {
    StrLeIsOrder();
    forall a: Node, b: Node, c: Node | NodeLe(a, b) && NodeLe(b, c) ensures NodeLe(a, c) {
      StrLeTransitive(a.name, b.name, c.name);
    }
    forall a: External, b: External, c: External | ExternalLe(a, b) && ExternalLe(b, c) ensures ExternalLe(a, c) {
      StrLeTransitive(a.name, b.name, c.name);
    }
    forall a: User, b: User, c: User | UserLe(a, b) && UserLe(b, c) ensures UserLe(a, c) {
      StrLeTransitive(a.name, b.name, c.name);
    }
    forall a: string, b: string ensures StrLe(a, b) || StrLe(b, a) { StrLeTotal(a, b); }
  }

  lemma PolicyLeIsOrder()
    ensures IsOrder(PolicyLe)
  {
    forall a, b ensures PolicyLe(a, b) || PolicyLe(b, a) { StrLeTotal(a.name, b.name); }
    forall a, b, c | PolicyLe(a, b) && PolicyLe(b, c) ensures PolicyLe(a, c) {
      if a.priority == b.priority == c.priority { StrLeTransitive(a.name, b.name, c.name); }
    }
  }

  /** With distinct names the run order of policies does not depend on how they were listed. */
  lemma PolicySortPermutation(a: seq<Policy>, b: seq<Policy>)
    requires multiset(a) == multiset(b) && DistinctPolicies(a)
    ensures SortBy(a, PolicyLe) == SortBy(b, PolicyLe)
  {
    PolicyLeIsOrder();
    forall x, y | x in a && y in a && PolicyLe(x, y) && PolicyLe(y, x) ensures x == y {
      StrLeAntisymmetric(x.name, y.name);
    }
    SortByPermutation(a, b, PolicyLe);
  }
}
