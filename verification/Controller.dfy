/** Collecting one node's engine input from a cluster snapshot. */
module Controller {

  import opened Ordering
  import opened Resources
  import opened Engine

  // ---------------------------------------------------------------- cluster-wide policy resolution

  /** `Resolved("")` stands for a policy that needs or finds no target. */
  datatype Resolution = Invalid | Resolved(target: string)

  function SelectedNode(p: Policy): Node -> bool { (n: Node) => HasRole(n, Outbound) && Matches(p.egress, n.name, n.labels) }

  function SelectedExternal(p: Policy): External -> bool { (e: External) => Matches(p.egress, e.name, e.labels) }

  function NodeNames(ns: seq<Node>): (r: seq<string>)
    ensures |r| == |ns| && forall i :: 0 <= i < |ns| ==> r[i] == ns[i].name
  {
    seq(|ns|, i requires 0 <= i < |ns| => ns[i].name)
  }

  function Candidates(p: Policy, nodes: seq<Node>, externals: seq<External>): seq<string> {
    NodeNames(Filter(SelectedNode(p), nodes)) + ExternalNames(Filter(SelectedExternal(p), externals))
  }

  function Resolve(p: Policy, nodes: seq<Node>, externals: seq<External>): Resolution {
    if !CriteriaValid(p) || (p.action != ROUTE && p.action != REJECT) then Invalid
    else if p.action == REJECT then Resolved("")
    else
      var names := Candidates(p, nodes, externals);
      if names == [] then Resolved("") else if |names| != 1 then Invalid else Resolved(names[0])
  }

  method ResolveEgressPolicy(p: Policy, nodes: seq<Node>, externals: seq<External>) returns (r: Resolution)
    ensures r == Resolve(p, nodes, externals)
  {
    if !CriteriaValid(p) || (p.action != ROUTE && p.action != REJECT) {
      return Invalid;
    }
    if p.action == REJECT {
      return Resolved("");
    }
    var names: seq<string> := [];
    for i := 0 to |nodes|
      invariant names == NodeNames(Filter(SelectedNode(p), nodes[..i]))
    {
      FilterSnoc(SelectedNode(p), nodes, i);
      if HasRole(nodes[i], Outbound) && Matches(p.egress, nodes[i].name, nodes[i].labels) {
        names := names + [nodes[i].name];
      }
    }
    assert nodes[..|nodes|] == nodes;
    ghost var before := names;
    for i := 0 to |externals|
      invariant names == before + ExternalNames(Filter(SelectedExternal(p), externals[..i]))
    {
      FilterSnoc(SelectedExternal(p), externals, i);
      if Matches(p.egress, externals[i].name, externals[i].labels) {
        names := names + [externals[i].name];
      }
    }
    assert externals[..|externals|] == externals;
    assert names == Candidates(p, nodes, externals);
    if |names| == 0 {
      return Resolved("");
    }
    r := if |names| != 1 then Invalid else Resolved(names[0]);
  }

  function FindNode(nodes: seq<Node>, name: string): (r: Option<Node>)
    ensures r.Some? ==> r.value in nodes && r.value.name == name && HasRole(r.value, Outbound)
    ensures r.None? ==> forall n :: n in nodes && n.name == name ==> !HasRole(n, Outbound)
  {
    if nodes == [] then None
    else if nodes[0].name == name && HasRole(nodes[0], Outbound) then Some(nodes[0])
    else FindNode(nodes[1..], name)
  }

  function FindExternal(externals: seq<External>, name: string): (r: Option<External>)
    ensures r.Some? ==> r.value in externals && r.value.name == name
    ensures r.None? ==> forall e :: e in externals ==> e.name != name
  {
    if externals == [] then None
    else if externals[0].name == name then Some(externals[0])
    else FindExternal(externals[1..], name)
  }

  /** Whether an egress target is reachable from an inbound node at all. */
  predicate Connected(inbound: Node, name: string, nodes: seq<Node>, externals: seq<External>) {
    match FindNode(nodes, name)
    case Some(t) =>
      if t.name == inbound.name then HasRole(inbound, Outbound)
      else t.region == inbound.region && PairAllowed(inbound, t.name, t.allowedInbounds)
    case None =>
      match FindExternal(externals, name)
      case Some(e) => e.region != "" && e.region == inbound.region && PairAllowed(inbound, e.name, e.allowedInbounds)
      case None => false
  }

  // ---------------------------------------------------------------- what a node's input consists of

  predicate PeerOf(node: Node, n: Node) {
    && n.name != node.name && n.region == node.region && HasRole(n, Outbound)
    && PairAllowed(node, n.name, n.allowedInbounds)
  }

  function Peering(node: Node): Node -> bool { n => PeerOf(node, n) }

  /** SingBoxNode names, taken, shadow ExternalOutbound names. */
  predicate Discovers(taken: set<string>, node: Node, e: External) {
    && e.name !in taken && e.region != "" && e.region == node.region
    && PairAllowed(node, e.name, e.allowedInbounds)
  }

  function Discoverable(taken: set<string>, node: Node): External -> bool { e => Discovers(taken, node, e) }

  function Taken(node: Node, nodes: seq<Node>): set<string> { {node.name} + set n | n in nodes :: n.name }

  predicate Admits(node: Node, nodes: seq<Node>, externals: seq<External>, p: Policy) {
    && HasRole(node, Inbound) && Matches(p.ingress, node.name, node.labels)
    && var r := Resolve(p, nodes, externals);
       r.Resolved? && (p.action == REJECT || (r.target != "" && Connected(node, r.target, nodes, externals)))
  }

  function Admission(node: Node, nodes: seq<Node>, externals: seq<External>): Policy -> bool {
    p => Admits(node, nodes, externals, p)
  }

  /** The node an admitted route policy adds, if its target is one. */
  function PolicyNode(p: Policy, nodes: seq<Node>, externals: seq<External>): seq<Node> {
    if p.action == REJECT || Resolve(p, nodes, externals).Invalid? then [] else
      match FindNode(nodes, Resolve(p, nodes, externals).target)
      case Some(n) => [n]
      case None => []
  }

  function PolicyExternal(p: Policy, nodes: seq<Node>, externals: seq<External>): seq<External> {
    if p.action == REJECT || Resolve(p, nodes, externals).Invalid? then [] else
      var name := Resolve(p, nodes, externals).target;
      if FindNode(nodes, name).Some? then [] else
        match FindExternal(externals, name)
        case Some(e) => [e]
        case None => []
  }

  function PolicyNodes(ps: seq<Policy>, nodes: seq<Node>, externals: seq<External>): seq<Node> {
    if ps == [] then [] else
      PolicyNodes(ps[..|ps| - 1], nodes, externals) + PolicyNode(ps[|ps| - 1], nodes, externals)
  }

  function PolicyExternals(ps: seq<Policy>, nodes: seq<Node>, externals: seq<External>): seq<External> {
    if ps == [] then [] else
      PolicyExternals(ps[..|ps| - 1], nodes, externals) + PolicyExternal(ps[|ps| - 1], nodes, externals)
  }

  function IndexNodes(ns: seq<Node>): map<string, Node> {
    if ns == [] then map[] else IndexNodes(ns[..|ns| - 1])[ns[|ns| - 1].name := ns[|ns| - 1]]
  }

  function IndexExternals(es: seq<External>): map<string, External> {
    if es == [] then map[] else IndexExternals(es[..|es| - 1])[es[|es| - 1].name := es[|es| - 1]]
  }

  function Restrict<V>(m: map<string, V>, names: seq<string>): map<string, V> {
    map k | k in m && k in names :: m[k]
  }

  function UserNames(us: seq<User>): (r: seq<string>)
    ensures |r| == |us| && forall i :: 0 <= i < |us| ==> r[i] == us[i].name
  {
    seq(|us|, i requires 0 <= i < |us| => us[i].name)
  }

  function GroupOf(c: Cluster, u: User): Option<Group> {
    if u.groupRef != "" && u.groupRef in c.groups then Some(c.groups[u.groupRef]) else None
  }

  function ToSet(names: seq<string>): set<string> { set x | x in names }

  function DeniedSets(c: Cluster, us: seq<User>): map<string, set<string>> {
    if us == [] then map[] else
      var rest, u := DeniedSets(c, us[..|us| - 1]), us[|us| - 1];
      match GroupOf(c, u)
      case Some(g) => rest[u.name := ToSet(g.deniedNodes)]
      case None => rest
  }

  function AllowedSets(c: Cluster, us: seq<User>): map<string, set<string>> {
    if us == [] then map[] else
      var rest, u := AllowedSets(c, us[..|us| - 1]), us[|us| - 1];
      match GroupOf(c, u)
      case Some(g) => if ToSet(g.allowedNodes) != {} then rest[u.name := ToSet(g.allowedNodes)] else rest
      case None => rest
  }

  function SortedNodes(c: Cluster): seq<Node> { SortBy(c.nodes, NodeLe) }

  function SortedExternals(c: Cluster): seq<External> { SortBy(c.externals, ExternalLe) }

  function SortedUsers(c: Cluster, node: Node): seq<User> {
    if HasRole(node, Inbound) then SortBy(c.users, UserLe) else []
  }

  function AdmittedPolicies(c: Cluster, node: Node): seq<Policy> {
    Filter(Admission(node, SortedNodes(c), SortedExternals(c)), c.policies)
  }

  function KnownNodes(c: Cluster, node: Node): seq<Node> {
    Filter(Peering(node), SortedNodes(c)) + PolicyNodes(AdmittedPolicies(c, node), SortedNodes(c), SortedExternals(c))
  }

  function Discovered(c: Cluster, node: Node): seq<External> {
    Filter(Discoverable(Taken(node, c.nodes), node), SortedExternals(c))
  }

  function KnownExternals(c: Cluster, node: Node): seq<External> {
    Discovered(c, node) + PolicyExternals(AdmittedPolicies(c, node), SortedNodes(c), SortedExternals(c))
  }

  function InputOf(c: Cluster, node: Node): Input {
    var users := SortedUsers(c, node);
    var nodes, externals := KnownNodes(c, node), KnownExternals(c, node);
    Input(
      node, users, Restrict(c.userCreds, UserNames(users)),
      Filter(Peering(node), SortedNodes(c)), AdmittedPolicies(c, node),
      Restrict(c.nodeCreds, NodeNames(nodes) + (if HasRole(node, Outbound) then [node.name] else [])), IndexNodes(nodes),
      Discovered(c, node), IndexExternals(externals), Restrict(c.externalCreds, ExternalNames(externals)),
      DeniedSets(c, users), AllowedSets(c, users))
  }

  // ---------------------------------------------------------------- collecting it step by step

  lemma RestrictSnoc<V>(m: map<string, V>, names: seq<string>, k: string)
    ensures Restrict(m, names + [k]) == if k in m then Restrict(m, names)[k := m[k]] else Restrict(m, names)
  {}

  lemma TakenSnoc(node: Node, nodes: seq<Node>, i: nat)
    requires i < |nodes|
    ensures Taken(node, nodes[..i + 1]) == Taken(node, nodes[..i]) + {nodes[i].name}
  {
    assert nodes[..i + 1] == nodes[..i] + [nodes[i]];
  }

  lemma IndexSnoc(c: Cluster, nodes: seq<Node>, n: Node)
    ensures IndexNodes(nodes + [n]) == IndexNodes(nodes)[n.name := n]
    ensures Restrict(c.nodeCreds, NodeNames(nodes + [n])) ==
            if n.name in c.nodeCreds then Restrict(c.nodeCreds, NodeNames(nodes))[n.name := c.nodeCreds[n.name]]
            else Restrict(c.nodeCreds, NodeNames(nodes))
  {
    RestrictSnoc(c.nodeCreds, NodeNames(nodes), n.name);
    assert NodeNames(nodes + [n]) == NodeNames(nodes) + [n.name];
    assert (nodes + [n])[..|nodes|] == nodes;
  }

  method CollectPeers(c: Cluster, node: Node, nodes: seq<Node>)
    returns (taken: set<string>, peers: seq<Node>, byName: map<string, Node>, creds: map<string, NodeCredential>)
    ensures taken == Taken(node, nodes)
    ensures peers == Filter(Peering(node), nodes)
    ensures byName == IndexNodes(peers) && creds == Restrict(c.nodeCreds, NodeNames(peers))
  {
    taken, peers, byName, creds := {node.name}, [], map[], map[];
    for i := 0 to |nodes|
      invariant taken == Taken(node, nodes[..i])
      invariant peers == Filter(Peering(node), nodes[..i])
      invariant byName == IndexNodes(peers) && creds == Restrict(c.nodeCreds, NodeNames(peers))
    {
      hide Filter, PeerOf, Restrict, IndexNodes, Taken;
      var other := nodes[i];
      FilterSnoc(Peering(node), nodes, i);
      TakenSnoc(node, nodes, i);
      taken := taken + {other.name};
      if PeerOf(node, other) {
        IndexSnoc(c, peers, other);
        peers := peers + [other];
        byName := byName[other.name := other];
        if other.name in c.nodeCreds {
          creds := creds[other.name := c.nodeCreds[other.name]];
        }
      }
    }
    assert nodes[..|nodes|] == nodes;
  }

  lemma IndexExternalsSnoc(c: Cluster, es: seq<External>, e: External)
    ensures IndexExternals(es + [e]) == IndexExternals(es)[e.name := e]
    ensures Restrict(c.externalCreds, ExternalNames(es + [e])) ==
            if e.name in c.externalCreds then Restrict(c.externalCreds, ExternalNames(es))[e.name := c.externalCreds[e.name]]
            else Restrict(c.externalCreds, ExternalNames(es))
  {
    RestrictSnoc(c.externalCreds, ExternalNames(es), e.name);
    assert ExternalNames(es + [e]) == ExternalNames(es) + [e.name];
    assert (es + [e])[..|es|] == es;
  }

  method CollectExternals(c: Cluster, node: Node, taken: set<string>, externals: seq<External>)
    returns (found: seq<External>, byName: map<string, External>, creds: map<string, SecretData>)
    ensures found == Filter(Discoverable(taken, node), externals)
    ensures byName == IndexExternals(found) && creds == Restrict(c.externalCreds, ExternalNames(found))
  {
    found, byName, creds := [], map[], map[];
    for i := 0 to |externals|
      invariant found == Filter(Discoverable(taken, node), externals[..i])
      invariant byName == IndexExternals(found) && creds == Restrict(c.externalCreds, ExternalNames(found))
    {
      hide Filter, Discovers, Restrict, IndexExternals;
      var e := externals[i];
      FilterSnoc(Discoverable(taken, node), externals, i);
      if Discovers(taken, node, e) {
        IndexExternalsSnoc(c, found, e);
        found := found + [e];
        byName := byName[e.name := e];
        if e.name in c.externalCreds {
          creds := creds[e.name := c.externalCreds[e.name]];
        }
      }
    }
    assert externals[..|externals|] == externals;
  }

  method CollectUsers(c: Cluster, users: seq<User>)
    returns (creds: map<string, string>, denied: map<string, set<string>>, allowed: map<string, set<string>>)
    ensures creds == Restrict(c.userCreds, UserNames(users))
    ensures denied == DeniedSets(c, users) && allowed == AllowedSets(c, users)
  {
    creds, denied, allowed := map[], map[], map[];
    for i := 0 to |users|
      invariant creds == Restrict(c.userCreds, UserNames(users[..i]))
      invariant denied == DeniedSets(c, users[..i]) && allowed == AllowedSets(c, users[..i])
    {
      var u := users[i];
      RestrictSnoc(c.userCreds, UserNames(users[..i]), u.name);
      assert UserNames(users[..i + 1]) == UserNames(users[..i]) + [u.name];
      assert users[..i + 1][..i] == users[..i];
      if u.name in c.userCreds {
        creds := creds[u.name := c.userCreds[u.name]];
      }
      if u.groupRef != "" && u.groupRef in c.groups {
        var g := c.groups[u.groupRef];
        denied := denied[u.name := ToSet(g.deniedNodes)];
        if ToSet(g.allowedNodes) != {} {
          allowed := allowed[u.name := ToSet(g.allowedNodes)];
        }
      }
    }
    assert users[..|users|] == users;
  }

  method AdmitPolicy(node: Node, nodes: seq<Node>, externals: seq<External>, p: Policy)
    returns (admitted: bool, viaNode: seq<Node>, viaExternal: seq<External>)
    ensures admitted == Admits(node, nodes, externals, p)
    ensures admitted ==> viaNode == PolicyNode(p, nodes, externals) && viaExternal == PolicyExternal(p, nodes, externals)
  {
    viaNode, viaExternal := [], [];
    if !HasRole(node, Inbound) || !Matches(p.ingress, node.name, node.labels) {
      return false, [], [];
    }
    var r := ResolveEgressPolicy(p, nodes, externals);
    if r.Invalid? {
      return false, [], [];
    }
    if p.action == REJECT {
      return true, [], [];
    }
    if r.target == "" || !Connected(node, r.target, nodes, externals) {
      return false, [], [];
    }
    var n := FindNode(nodes, r.target);
    if n.Some? {
      return true, [n.value], [];
    }
    var e := FindExternal(externals, r.target);
    return true, [], if e.Some? then [e.value] else [];
  }

  method CollectPolicies(node: Node, nodes: seq<Node>, externals: seq<External>, all: seq<Policy>)
    returns (ps: seq<Policy>, viaNodes: seq<Node>, viaExternals: seq<External>)
    ensures ps == Filter(Admission(node, nodes, externals), all)
    ensures viaNodes == PolicyNodes(ps, nodes, externals) && viaExternals == PolicyExternals(ps, nodes, externals)
  {
    ps, viaNodes, viaExternals := [], [], [];
    for i := 0 to |all|
      invariant ps == Filter(Admission(node, nodes, externals), all[..i])
      invariant viaNodes == PolicyNodes(ps, nodes, externals)
      invariant viaExternals == PolicyExternals(ps, nodes, externals)
    {
      FilterSnoc(Admission(node, nodes, externals), all, i);
      var admitted, n, e := AdmitPolicy(node, nodes, externals, all[i]);
      if admitted {
        assert (ps + [all[i]])[..|ps|] == ps;
        ps := ps + [all[i]];
        viaNodes := viaNodes + n;
        viaExternals := viaExternals + e;
      }
    }
    assert all[..|all|] == all;
  }

  method IndexMoreNodes(c: Cluster, known: seq<Node>, more: seq<Node>,
                        byName0: map<string, Node>, creds0: map<string, NodeCredential>)
    returns (byName: map<string, Node>, creds: map<string, NodeCredential>)
    requires byName0 == IndexNodes(known) && creds0 == Restrict(c.nodeCreds, NodeNames(known))
    ensures byName == IndexNodes(known + more) && creds == Restrict(c.nodeCreds, NodeNames(known + more))
  {
    byName, creds := byName0, creds0;
    assert known + more[..0] == known;
    for i := 0 to |more|
      invariant byName == IndexNodes(known + more[..i]) && creds == Restrict(c.nodeCreds, NodeNames(known + more[..i]))
    {
      var n, sofar := more[i], known + more[..i];
      hide Restrict, IndexNodes;
      IndexSnoc(c, sofar, n);
      assert known + more[..i + 1] == sofar + [n];
      byName := byName[n.name := n];
      if n.name in c.nodeCreds {
        creds := creds[n.name := c.nodeCreds[n.name]];
      }
    }
    assert more[..|more|] == more;
  }

  method IndexMoreExternals(c: Cluster, known: seq<External>, more: seq<External>,
                            byName0: map<string, External>, creds0: map<string, SecretData>)
    returns (byName: map<string, External>, creds: map<string, SecretData>)
    requires byName0 == IndexExternals(known) && creds0 == Restrict(c.externalCreds, ExternalNames(known))
    ensures byName == IndexExternals(known + more) && creds == Restrict(c.externalCreds, ExternalNames(known + more))
  {
    byName, creds := byName0, creds0;
    assert known + more[..0] == known;
    for i := 0 to |more|
      invariant byName == IndexExternals(known + more[..i])
      invariant creds == Restrict(c.externalCreds, ExternalNames(known + more[..i]))
    {
      var e, sofar := more[i], known + more[..i];
      hide Restrict, IndexExternals;
      IndexExternalsSnoc(c, sofar, e);
      assert known + more[..i + 1] == sofar + [e];
      byName := byName[e.name := e];
      if e.name in c.externalCreds {
        creds := creds[e.name := c.externalCreds[e.name]];
      }
    }
    assert more[..|more|] == more;
  }

  method CollectInput(c: Cluster, node: Node) returns (input: Input)
    ensures input == InputOf(c, node)
  {
    var nodes, externals := SortBy(c.nodes, NodeLe), SortBy(c.externals, ExternalLe);
    NameOrders();
    SortMembers(c.nodes, NodeLe);
    var taken, peers, nodesByName, nodeCreds := CollectPeers(c, node, nodes);
    assert taken == Taken(node, c.nodes);
    var found, externalsByName, externalCreds := CollectExternals(c, node, taken, externals);
    var users := SortedUsers(c, node);
    var userCreds, denied, allowed := CollectUsers(c, users);
    var ps, viaNodes, viaExternals := CollectPolicies(node, nodes, externals, c.policies);
    nodesByName, nodeCreds := IndexMoreNodes(c, peers, viaNodes, nodesByName, nodeCreds);
    externalsByName, externalCreds := IndexMoreExternals(c, found, viaExternals, externalsByName, externalCreds);
    ghost var known := KnownNodes(c, node);
    if HasRole(node, Outbound) {
      RestrictSnoc(c.nodeCreds, NodeNames(known), node.name);
      if node.name in c.nodeCreds {
        nodeCreds := nodeCreds[node.name := c.nodeCreds[node.name]];
      }
    } else {
      assert NodeNames(known) + [] == NodeNames(known);
    }
    input := Input(node, users, userCreds, peers, ps, nodeCreds, nodesByName, found, externalsByName, externalCreds, denied, allowed);
  }
}
