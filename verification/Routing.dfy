/** What a generated rule list means: first-match evaluation against the policies it was compiled from. */
module Routing {

  import opened Ordering
  import opened Resources
  import opened Engine

  // ---------------------------------------------------------------- first-match evaluation

  /** A connection as the router sees it; `dest` answers which match criteria its destination meets. */
  datatype Request = Request(inbound: string, identity: string, dest: Criteria -> bool)

  datatype Decision = Rejected | Via(tag: string)

  predicate Hits(c: Criteria, q: Request) { c == NO_CRITERIA || q.dest(c) }

  predicate RuleMatches(r: Rule, q: Request) {
    && (r.inbound == [] || q.inbound in r.inbound)
    && (r.authUser == [] || q.identity in r.authUser)
    && Hits(r.criteria, q)
  }

  function Effect(r: Rule): Decision { if r.action == REJECT then Rejected else Via(r.outbound) }

  function FirstMatch(rules: seq<Rule>, q: Request): Option<Decision> {
    if rules == [] then None
    else if RuleMatches(rules[0], q) then Some(Effect(rules[0]))
    else FirstMatch(rules[1..], q)
  }

  function Evaluate(c: Config, q: Request): Decision {
    match FirstMatch(c.rules, q)
    case Some(d) => d
    case None => Via(c.final)
  }

  lemma {:induction false} FirstMatchConcat(a: seq<Rule>, b: seq<Rule>, q: Request)
    ensures FirstMatch(a + b, q) == if FirstMatch(a, q).Some? then FirstMatch(a, q) else FirstMatch(b, q)
  {
    if a == [] {
      assert a + b == b;
    } else {
      FirstMatchConcat(a[1..], b, q);
      assert (a + b)[1..] == a[1..] + b;
    }
  }

  // ---------------------------------------------------------------- virtual user names

  predicate HashFree(s: string) { '#' !in s }

  ghost predicate HashFreeUsers(users: seq<User>) { forall u :: u in users ==> HashFree(u.name) }

  /** A virtual user name determines both its user and its target. */
  lemma VirtualUserInjective(u: string, n: string, v: string, m: string)
    requires HashFree(u) && HashFree(v) && VirtualUser(u, n) == VirtualUser(v, m)
    ensures u == v && n == m
  {
    var a, b := VirtualUser(u, n), VirtualUser(v, m);
    assert a[|u|] == '#' && b[|v|] == '#';
    assert u == a[..|u|] && v == b[..|v|];
    assert forall i :: 0 <= i < |u| ==> a[i] != '#';
    assert forall i :: 0 <= i < |v| ==> b[i] != '#';
    assert n == a[|u| + 1..] && m == b[|v| + 1..];
  }

  /** The virtual user `u#n` is among those of `target` exactly when n is the target and u may use it. */
  lemma AuthUsersMember(input: Input, u: User, n: string, target: string)
    requires HashFreeUsers(input.users) && u in input.users && MayUse(input, u, n)
    ensures VirtualUser(u.name, n) in AuthUsers(input, input.users, target) <==> n == target
  {
    var v := VirtualUser(u.name, n);
    if v in AuthUsers(input, input.users, target) {
      var w :| w in input.users && MayUse(input, w, target) && v == VirtualUser(w.name, target);
      VirtualUserInjective(u.name, n, w.name, target);
    }
  }

  // ---------------------------------------------------------------- first-match refinement

  /** The reference reading of a policy list, for traffic of a virtual user bound to `target`. */
  ghost function Reference(input: Input, ps: seq<Policy>, target: string, q: Request): Decision {
    if ps == [] then
      Via(OutboundTag(target))
    else if !Active(input, ps[0]) then
      Reference(input, ps[1..], target, q)
    else if Hits(ps[0].criteria, q) then
      if ps[0].action == REJECT then Rejected else Via(OutboundTag(Egress(input, ps[0])))
    else if GuardsEgress(ps[0]) && Egress(input, ps[0]) == target then
      Rejected
    else
      Reference(input, ps[1..], target, q)
  }

  lemma {:induction false} PolicyRulesCons(input: Input, ps: seq<Policy>)
    requires ps != []
    ensures PolicyRules(input, ps) == RulesOf(input, ps[0]) + PolicyRules(input, ps[1..])
  {
    var front, p := ps[..|ps| - 1], ps[|ps| - 1];
    if |ps| == 1 {
      assert ps[1..] == [] && front == [];
    } else {
      PolicyRulesCons(input, front);
      assert ps[1..][..|ps| - 2] == front[1..] && ps[1..][|ps| - 2] == p;
      assert front[0] == ps[0];
    }
  }

  /** One policy's rules: what they decide for `u#n`, and when they leave it to the rules below. */
  lemma RulesOfDecision(input: Input, p: Policy, u: User, n: string, q: Request)
    requires HashFreeUsers(input.users) && u in input.users && MayUse(input, u, n)
    requires q.inbound == InboundTag(input.node) && q.identity == VirtualUser(u.name, n)
    ensures FirstMatch(RulesOf(input, p), q) ==
            if !Active(input, p) then None
            else if Hits(p.criteria, q) then Some(if p.action == REJECT then Rejected else Via(OutboundTag(Egress(input, p))))
            else if GuardsEgress(p) && Egress(input, p) == n then Some(Rejected)
            else None
  {
    if p.action != REJECT && Active(input, p) {
      var name := Egress(input, p);
      var guards := AuthUsers(input, input.users, name);
      AuthUsersMember(input, u, n, name);
      var head := Rule([InboundTag(input.node)], [], p.criteria, "", OutboundTag(name));
      if GuardsEgress(p) && guards != [] {
        var guard := Rule([], guards, NO_CRITERIA, REJECT, "");
        assert RulesOf(input, p) == [head] + [guard];
        FirstMatchConcat([head], [guard], q);
      } else {
        assert RulesOf(input, p) == [head];
      }
    }
  }

  lemma {:induction false} PolicyRulesRefine(input: Input, ps: seq<Policy>, u: User, n: string, q: Request)
    requires HashFreeUsers(input.users) && u in input.users && MayUse(input, u, n)
    requires q.inbound == InboundTag(input.node) && q.identity == VirtualUser(u.name, n)
    ensures Reference(input, ps, n, q) ==
            match FirstMatch(PolicyRules(input, ps), q) case Some(d) => d case None => Via(OutboundTag(n))
  {
    if ps != [] {
      PolicyRulesCons(input, ps);
      FirstMatchConcat(RulesOf(input, ps[0]), PolicyRules(input, ps[1..]), q);
      RulesOfDecision(input, ps[0], u, n, q);
      PolicyRulesRefine(input, ps[1..], u, n, q);
    }
  }

  /** The target a generic rule list sends an identity to, if it sends it anywhere. */
  ghost predicate Owns(input: Input, n: string, identity: string) {
    identity in AuthUsers(input, input.users, n)
  }

  lemma OwnsUnique(input: Input, n: string, m: string, identity: string)
    requires HashFreeUsers(input.users) && Owns(input, n, identity) && Owns(input, m, identity)
    ensures n == m
  {
    var u :| u in input.users && MayUse(input, u, n) && identity == VirtualUser(u.name, n);
    var v :| v in input.users && MayUse(input, v, m) && identity == VirtualUser(v.name, m);
    VirtualUserInjective(u.name, n, v.name, m);
  }

  lemma GenericRuleDecision(input: Input, t: string, q: Request)
    ensures FirstMatch(GenericRule(input, t), q) == if Owns(input, t, q.identity) then Some(Via(OutboundTag(t))) else None
  {
    var users := AuthUsers(input, input.users, t);
    if users != [] {
      var r := Rule([], users, NO_CRITERIA, "", OutboundTag(t));
      assert GenericRule(input, t) == [r] && [r][1..] == [];
      assert RuleMatches(r, q) <==> Owns(input, t, q.identity);
    }
  }

  /** Generic rules send an identity to the one listed target that owns it, wherever that target is listed. */
  lemma {:induction false} GenericRulesDecision(input: Input, targets: seq<string>, q: Request)
    requires HashFreeUsers(input.users)
    ensures forall n :: n in targets && Owns(input, n, q.identity) ==>
                          FirstMatch(GenericRules(input, targets), q) == Some(Via(OutboundTag(n)))
    ensures (forall n :: n in targets ==> !Owns(input, n, q.identity)) ==> FirstMatch(GenericRules(input, targets), q) == None
  {
    if targets != [] {
      hide Owns, GenericRule, FirstMatch, OutboundTag;
      var front, t := targets[..|targets| - 1], targets[|targets| - 1];
      GenericRulesDecision(input, front, q);
      FirstMatchConcat(GenericRules(input, front), GenericRule(input, t), q);
      assert targets == front + [t];
      GenericRuleDecision(input, t, q);
      forall n | n in targets && Owns(input, n, q.identity)
        ensures FirstMatch(GenericRules(input, targets), q) == Some(Via(OutboundTag(n)))
      {
        if Owns(input, t, q.identity) { OwnsUnique(input, n, t, q.identity); }
        if n !in front {
          forall m | m in front ensures !Owns(input, m, q.identity) {
            if Owns(input, m, q.identity) { OwnsUnique(input, n, m, q.identity); }
          }
        }
      }
    }
  }

  ghost predicate Provisioned(input: Input, u: User, n: string) {
    && HasRole(input.node, Inbound) && Relays(input)
    && n in Targets(input, IsSelfExit(input.node)) && u in input.users && MayUse(input, u, n)
  }

  /** Evaluating the compiled rules of `u#n` gives the reference decision for every destination. */
  lemma FirstMatchRefinement(input: Input, u: User, n: string, q: Request)
    requires HashFreeUsers(input.users) && Provisioned(input, u, n)
    requires q.inbound == InboundTag(input.node) && q.identity == VirtualUser(u.name, n)
    ensures Evaluate(ConfigOf(input), q) == Reference(input, SortedPolicies(input), n, q)
  {
    var targets := Targets(input, IsSelfExit(input.node));
    var ps := SortedPolicies(input);
    PolicyRulesRefine(input, ps, u, n, q);
    GenericRulesDecision(input, targets, q);
    AuthUsersMember(input, u, n, n);
    assert Owns(input, n, q.identity);
    FirstMatchConcat(PolicyRules(input, ps), GenericRules(input, targets), q);
  }

  // ---------------------------------------------------------------- policy order independence

  ghost predicate DiffersInPolicyOrder(a: Input, b: Input) {
    b == a.(policies := b.policies) && multiset(a.policies) == multiset(b.policies) && DistinctPolicies(a.policies)
  }

  lemma EgressFrame(a: Input, b: Input, p: Policy)
    requires b == a.(policies := b.policies)
    ensures Egress(a, p) == Egress(b, p) && (Usable(a, Egress(a, p)) <==> Usable(b, Egress(b, p)))
  {
    assert NodeMatches(a, p) == NodeMatches(b, p);
    assert ExternalMatches(a, p) == ExternalMatches(b, p);
  }

  lemma {:induction false} AuthUsersFrame(a: Input, b: Input, users: seq<User>, t: string)
    requires b == a.(policies := b.policies)
    ensures AuthUsers(a, users, t) == AuthUsers(b, users, t)
    ensures ListenerUsersFor(a, users, t) == ListenerUsersFor(b, users, t)
  {
    if users != [] { AuthUsersFrame(a, b, users[..|users| - 1], t); }
  }

  lemma {:induction false} PolicyRulesFrame(a: Input, b: Input, ps: seq<Policy>)
    requires b == a.(policies := b.policies)
    ensures PolicyRules(a, ps) == PolicyRules(b, ps)
  {
    if ps != [] {
      var p := ps[|ps| - 1];
      PolicyRulesFrame(a, b, ps[..|ps| - 1]);
      EgressFrame(a, b, p);
      AuthUsersFrame(a, b, a.users, Egress(a, p));
    }
  }

  lemma {:induction false} PolicyExitsFrame(a: Input, b: Input, ps: seq<Policy>)
    requires b == a.(policies := b.policies)
    ensures PolicyExits(a, ps) == PolicyExits(b, ps)
  {
    if ps != [] {
      var front, p := ps[..|ps| - 1], ps[|ps| - 1];
      PolicyExitsFrame(a, b, front);
      forall r | r in ps ensures Egress(a, r) == Egress(b, r) { EgressFrame(a, b, r); }
      assert RouteEgresses(a, front) == RouteEgresses(b, front);
      assert p in ps;
    }
  }

  lemma {:induction false} PeerExitsFrame(a: Input, b: Input, nodes: seq<Node>)
    requires b == a.(policies := b.policies)
    ensures PeerExits(a, nodes) == PeerExits(b, nodes)
  {
    if nodes != [] { PeerExitsFrame(a, b, nodes[..|nodes| - 1]); }
  }

  lemma {:induction false} UsableExternalsFrame(a: Input, b: Input, es: seq<External>)
    requires b == a.(policies := b.policies)
    ensures UsableExternals(a, es) == UsableExternals(b, es)
    ensures ExternalExits(a, es) == ExternalExits(b, es)
  {
    if es != [] { UsableExternalsFrame(a, b, es[..|es| - 1]); }
  }

  lemma {:induction false} ExtendMembers(names: seq<string>, xs: seq<string>)
    ensures forall x :: x in Extend(names, xs) <==> x in names || x in xs
    ensures NoDup(names) ==> NoDup(Extend(names, xs))
  {
    if xs != [] {
      var front := xs[..|xs| - 1];
      ExtendMembers(names, front);
      assert xs == front + [xs[|xs| - 1]];
    }
  }

  /** Which targets are provisioned, by origin. */
  lemma TargetMembers(input: Input, self: bool)
    ensures NoDup(Targets(input, self))
    ensures forall x :: x in Targets(input, self) <==>
                          || x in PeerNames(input.outboundNodes)
                          || x in PolicyTargets(input, input.policies)
                          || (self && x == input.node.name)
                          || x in ExternalNames(UsableExternals(input, input.externals))
  {
    var peers, chosen := PeerNames(input.outboundNodes), PolicyTargets(input, input.policies);
    ExtendMembers([], peers);
    ExtendMembers(Extend([], peers), chosen);
    ExtendMembers(NodeTargets(input, self), ExternalNames(UsableExternals(input, input.externals)));
  }

  lemma TargetsFrame(a: Input, b: Input, self: bool)
    requires DiffersInPolicyOrder(a, b)
    ensures forall x :: x in Targets(a, self) <==> x in Targets(b, self)
  {
    TargetMembers(a, self);
    TargetMembers(b, self);
    UsableExternalsFrame(a, b, a.externals);
    SameElements(a.policies, b.policies);
    forall p ensures Egress(a, p) == Egress(b, p) && (Usable(a, Egress(a, p)) <==> Usable(b, Egress(b, p))) {
      EgressFrame(a, b, p);
    }
    forall x ensures x in PolicyTargets(a, a.policies) <==> x in PolicyTargets(b, b.policies) {}
  }

  /** The generic rules of any two targets have no virtual user in common. */
  lemma GenericRulesDisjoint(input: Input, n: string, m: string, identity: string)
    requires HashFreeUsers(input.users) && n != m
    ensures !(identity in AuthUsers(input, input.users, n) && identity in AuthUsers(input, input.users, m))
  {
    if Owns(input, n, identity) && Owns(input, m, identity) { OwnsUnique(input, n, m, identity); }
  }

  ghost predicate Emits(input: Input, targets: seq<string>, r: Rule) {
    exists t :: t in targets && r in GenericRule(input, t)
  }

  lemma EmitsSnoc(input: Input, front: seq<string>, t: string, r: Rule)
    ensures Emits(input, front + [t], r) <==> Emits(input, front, r) || r in GenericRule(input, t)
  {
    if r in GenericRule(input, t) { assert t in front + [t]; }
    if Emits(input, front, r) {
      var x :| x in front && r in GenericRule(input, x);
      assert x in front + [t];
    }
  }

  lemma EmitsOnce(input: Input, front: seq<string>, t: string, r: Rule)
    requires t !in front && r in GenericRule(input, t)
    ensures !Emits(input, front, r)
  {
    forall x | x in front ensures r !in GenericRule(input, x) { OutboundTagInjective(x, t); }
  }

  lemma ConcatCount<T>(a: seq<T>, b: seq<T>, x: T)
    ensures multiset(a + b)[x] == multiset(a)[x] + multiset(b)[x]
  {
    assert multiset(a + b) == multiset(a) + multiset(b);
  }

  /** Each generic rule is emitted once. */
  lemma {:induction false} GenericRulesContent(input: Input, targets: seq<string>, r: Rule)
    requires NoDup(targets)
    ensures multiset(GenericRules(input, targets))[r] == if Emits(input, targets, r) then 1 else 0
  {
    if targets != [] {
      hide Emits;
      var front, t := targets[..|targets| - 1], targets[|targets| - 1];
      GenericRulesContent(input, front, r);
      assert targets == front + [t];
      EmitsSnoc(input, front, t, r);
      var g := GenericRule(input, t);
      ConcatCount(GenericRules(input, front), g, r);
      assert multiset(g)[r] == if r in g then 1 else 0;
      if r in g { EmitsOnce(input, front, t, r); }
    }
  }

  lemma OutboundTagInjective(n: string, m: string)
    ensures OutboundTag(n) == OutboundTag(m) ==> n == m
  {
    assert OutboundTag(n)[9..] == n && OutboundTag(m)[9..] == m;
  }

  lemma ListenerUsersSnoc(input: Input, targets: seq<string>, t: string)
    ensures ListenerUsers(input, targets + [t]) == ListenerUsers(input, targets) + ListenerUsersFor(input, input.users, t)
  {
    assert (targets + [t])[..|targets|] == targets;
  }

  lemma MultisetConcat<T>(a: seq<T>, b: seq<T>)
    ensures multiset(a + b) == multiset(a) + multiset(b)
  {}

  lemma MultisetSwap<T>(a: multiset<T>, b: multiset<T>, c: multiset<T>)
    ensures a + b + c == a + c + b
  {}

  lemma RemoveOne<T>(s: seq<T>, k: nat)
    requires k < |s|
    ensures multiset(s) == multiset(s[..k] + s[k + 1..]) + multiset{s[k]}
  {
    assert s == s[..k] + [s[k]] + s[k + 1..];
  }

  lemma SameWithout<T>(a: multiset<T>, b: multiset<T>, x: T)
    requires a + multiset{x} == b + multiset{x}
    ensures a == b
  {
    assert a == (a + multiset{x}) - multiset{x} && b == (b + multiset{x}) - multiset{x};
  }

  /** The entries of one target can be taken out wherever it is listed. */
  lemma {:induction false} ListenerUsersRemove(input: Input, targets: seq<string>, k: nat)
    requires k < |targets|
    ensures multiset(ListenerUsers(input, targets))
            == multiset(ListenerUsers(input, targets[..k] + targets[k + 1..])) + multiset(ListenerUsersFor(input, input.users, targets[k]))
  {
    hide ListenerUsersFor, ListenerUsers;
    var front, last := targets[..|targets| - 1], targets[|targets| - 1];
    var more := ListenerUsersFor(input, input.users, last);
    assert targets == front + [last];
    ListenerUsersSnoc(input, front, last);
    MultisetConcat(ListenerUsers(input, front), more);
    if k == |targets| - 1 {
      assert targets[..k] + targets[k + 1..] == front;
    } else {
      ListenerUsersRemove(input, front, k);
      var rest := front[..k] + front[k + 1..];
      ListenerUsersSnoc(input, rest, last);
      MultisetConcat(ListenerUsers(input, rest), more);
      assert targets[..k] + targets[k + 1..] == rest + [last];
      MultisetSwap(multiset(ListenerUsers(input, rest)), multiset(ListenerUsersFor(input, input.users, targets[k])), multiset(more));
    }
  }

  lemma {:induction false} ListenerUsersPermuted(input: Input, s: seq<string>, t: seq<string>)
    requires multiset(s) == multiset(t)
    ensures multiset(ListenerUsers(input, s)) == multiset(ListenerUsers(input, t))
  {
    hide ListenerUsersFor, ListenerUsers;
    SameElements(s, t);
    if s == [] {
      assert t == [];
    } else {
      var front, x := s[..|s| - 1], s[|s| - 1];
      assert s == front + [x] && x in s;
      var k :| 0 <= k < |t| && t[k] == x;
      var rest := t[..k] + t[k + 1..];
      RemoveOne(t, k);
      SameWithout(multiset(front), multiset(rest), x);
      ListenerUsersSnoc(input, front, x);
      MultisetConcat(ListenerUsers(input, front), ListenerUsersFor(input, input.users, x));
      ListenerUsersRemove(input, t, k);
      ListenerUsersPermuted(input, front, rest);
    }
  }

  lemma {:induction false} ListenerUsersFrame(a: Input, b: Input, targets: seq<string>)
    requires b == a.(policies := b.policies)
    ensures ListenerUsers(a, targets) == ListenerUsers(b, targets)
  {
    hide ListenerUsersFor;
    if targets != [] {
      ListenerUsersFrame(a, b, targets[..|targets| - 1]);
      AuthUsersFrame(a, b, a.users, targets[|targets| - 1]);
    }
  }

  lemma SameNamesPermuted(s: seq<string>, t: seq<string>)
    requires NoDup(s) && NoDup(t) && forall x :: x in s <==> x in t
    ensures multiset(s) == multiset(t)
  {
    forall x ensures multiset(s)[x] == multiset(t)[x] {
      NoDupCount(s, x);
      NoDupCount(t, x);
      assert (x in multiset(s) <==> x in s) && (x in multiset(t) <==> x in t);
    }
  }

  lemma TargetUsersPermuted(a: Input, b: Input, self: bool)
    requires DiffersInPolicyOrder(a, b)
    ensures multiset(ListenerUsers(a, Targets(a, self))) == multiset(ListenerUsers(b, Targets(b, self)))
  {
    hide Targets, ListenerUsers, NoDup;
    TargetMembers(a, self);
    TargetMembers(b, self);
    TargetsFrame(a, b, self);
    SameNamesPermuted(Targets(a, self), Targets(b, self));
    ListenerUsersFrame(a, b, Targets(b, self));
    ListenerUsersPermuted(a, Targets(a, self), Targets(b, self));
  }

  /** The same listeners, with the same user entries in some order. */
  ghost predicate SameButUserOrder(ls: seq<Listener>, ms: seq<Listener>) {
    |ls| == |ms| && forall i :: 0 <= i < |ls| ==> ms[i] == ls[i].(users := ms[i].users) && multiset(ls[i].users) == multiset(ms[i].users)
  }

  lemma {:induction false} PlainUsersFrame(a: Input, b: Input, users: seq<User>)
    requires b == a.(policies := b.policies)
    ensures PlainUsers(a, users) == PlainUsers(b, users)
  {
    if users != [] { PlainUsersFrame(a, b, users[..|users| - 1]); }
  }

  lemma EntryPermuted(protocol: string, port: int, us: seq<Auth>, vs: seq<Auth>)
    requires multiset(us) == multiset(vs)
    ensures SameButUserOrder([InboundEntry(protocol, port, us)], [InboundEntry(protocol, port, vs)])
  {}

  lemma RoutedPermuted(a: Input, b: Input, self: bool)
    requires DiffersInPolicyOrder(a, b)
    ensures var la, lb := RouteListeners(a, Targets(a, self)), RouteListeners(b, Targets(b, self));
            SameButUserOrder(la, lb) && (la == [] <==> lb == [])
  {
    hide Targets, ListenerUsers, ProtocolPort, EffectiveProtocol, InboundEntry, SameButUserOrder;
    var us, vs := ListenerUsers(a, Targets(a, self)), ListenerUsers(b, Targets(b, self));
    TargetUsersPermuted(a, b, self);
    SameElements(us, vs);
    var protocol := EffectiveProtocol(a.node);
    EntryPermuted(protocol, ProtocolPort(a.node.protocols, protocol), us, vs);
    NoListeners();
  }

  lemma NoListeners()
    ensures SameButUserOrder([], [])
  {}

  lemma SameListeners(ls: seq<Listener>)
    ensures SameButUserOrder(ls, ls)
  {}

  lemma ClientListenersPermuted(a: Input, b: Input)
    requires DiffersInPolicyOrder(a, b)
    ensures SameButUserOrder(ClientListeners(a), ClientListeners(b))
  {
    hide Relays, Targets, RouteListeners, PlainUsers, ProtocolPort, EffectiveProtocol, InboundEntry, SameButUserOrder;
    RelaysFrame(a, b);
    PlainUsersFrame(a, b, a.users);
    SameElements(a.policies, b.policies);
    RoutedPermuted(a, b, IsSelfExit(a.node));
    SameListeners(UserListeners(a));
  }

  lemma SameButOrderConcat(ls: seq<Listener>, ms: seq<Listener>, more: seq<Listener>)
    requires SameButUserOrder(ls, ms)
    ensures SameButUserOrder(ls + more, ms + more)
  {}

  lemma ListenersPermuted(a: Input, b: Input)
    requires DiffersInPolicyOrder(a, b)
    ensures SameButUserOrder(ConfigOf(a).inbounds, ConfigOf(b).inbounds)
  {
    hide ClientListeners, AllRules, AllExits, Dedup, RouteFinal, SameButUserOrder;
    var ls, ms := if HasRole(a.node, Inbound) then ClientListeners(a) else [], if HasRole(a.node, Inbound) then ClientListeners(b) else [];
    ClientListenersPermuted(a, b);
    NoListeners();
    SameButOrderConcat(ls, ms, if HasRole(a.node, Outbound) then [RelayListener(a)] else []);
  }

  /** Reordering the listed policies leaves policy rules, outbounds and final as they are and permutes the generic rules
      and the user entries of the listeners. */
  lemma PolicyOrderKeepsConfig(a: Input, b: Input)
    requires DiffersInPolicyOrder(a, b)
    ensures PolicyRules(a, SortedPolicies(a)) == PolicyRules(b, SortedPolicies(b))
    ensures ConfigOf(a).outbounds == ConfigOf(b).outbounds
    ensures multiset(AllRules(a)) == multiset(AllRules(b))
    ensures ConfigOf(a).final == ConfigOf(b).final
    ensures SameButUserOrder(ConfigOf(a).inbounds, ConfigOf(b).inbounds)
  {
    ListenersPermuted(a, b);
    hide SameButUserOrder, ClientListeners, Dedup, RouteFinal, PolicyRules, PolicyExits, PeerExits, ExternalExits, UsableExternals, GenericRules, Targets, SortBy, Relays;
    PolicySortPermutation(a.policies, b.policies);
    PolicyRulesFrame(a, b, SortedPolicies(a));
    PolicyExitsFrame(a, b, SortedPolicies(a));
    PeerExitsFrame(a, b, a.outboundNodes);
    UsableExternalsFrame(a, b, a.externals);
    UsableExternalsFrame(a, b, UsableExternals(a, a.externals));
    RelaysFrame(a, b);
    GenericRulesPermuted(a, b, IsSelfExit(a.node));
    SameElements(AllRules(a), AllRules(b));
  }

  lemma RelaysFrame(a: Input, b: Input)
    requires DiffersInPolicyOrder(a, b)
    ensures Relays(a) <==> Relays(b)
  {
    UsableExternalsFrame(a, b, a.externals);
    SameElements(a.policies, b.policies);
  }

  lemma GenericRulesPermuted(a: Input, b: Input, self: bool)
    requires DiffersInPolicyOrder(a, b)
    ensures multiset(GenericRules(a, Targets(a, self))) == multiset(GenericRules(b, Targets(b, self)))
  {
    var s, t := Targets(a, self), Targets(b, self);
    TargetsFrame(a, b, self);
    TargetMembers(a, self);
    TargetMembers(b, self);
    forall x ensures GenericRule(a, x) == GenericRule(b, x) { AuthUsersFrame(a, b, a.users, x); }
    forall r ensures multiset(GenericRules(a, s))[r] == multiset(GenericRules(b, t))[r] {
      GenericRulesContent(a, s, r);
      GenericRulesContent(b, t, r);
      assert Emits(a, s, r) <==> Emits(b, t, r);
    }
  }

  /** Reordering the listed policies changes the decision of no request, provisioned or not. */
  lemma PolicyOrderIndependence(a: Input, b: Input, q: Request)
    requires DiffersInPolicyOrder(a, b) && HashFreeUsers(a.users)
    ensures Evaluate(ConfigOf(a), q) == Evaluate(ConfigOf(b), q)
  {
    hide PolicyRules, GenericRules, Targets, SortBy, Relays, Dedup, AllExits, FirstMatch, ClientListeners, RouteFinal, AuthUsers;
    PolicyOrderKeepsConfig(a, b);
    RelaysFrame(a, b);
    if HasRole(a.node, Inbound) && Relays(a) {
      var self := IsSelfExit(a.node);
      var s, t := Targets(a, self), Targets(b, self);
      TargetsFrame(a, b, self);
      GenericRulesDecision(a, s, q);
      GenericRulesDecision(b, t, q);
      forall n ensures Owns(a, n, q.identity) <==> Owns(b, n, q.identity) { AuthUsersFrame(a, b, a.users, n); }
      FirstMatchConcat(PolicyRules(a, SortedPolicies(a)), GenericRules(a, s), q);
      FirstMatchConcat(PolicyRules(b, SortedPolicies(b)), GenericRules(b, t), q);
    }
  }
}
