/** Reference closure: every tag a generated server config mentions is one it emits, or exactly when not. */
module Closure {

  import opened Ordering
  import opened Resources
  import opened Engine
  import opened Routing
  import opened Controller
  import opened Collected

  /** What the controller's filtering establishes before the engine runs. */
  ghost predicate Gated(input: Input) {
    && KeyedByName(input)
    && (forall n :: n in input.outboundNodes ==> n.name != input.node.name && PairAllowed(input.node, n.name, n.allowedInbounds))
    && (forall p :: p in input.policies ==> p.action == ROUTE || p.action == REJECT)
    && (forall k :: k in input.nodesByName ==> HasRole(input.nodesByName[k], Outbound) && input.nodesByName[k].relayPort >= 0)
    && (input.policies != [] ==> HasRole(input.node, Inbound))
  }

  lemma CollectedIsGated(c: Cluster, node: Node)
    requires WellFormed(c)
    ensures Gated(InputOf(c, node))
  {
    var input := InputOf(c, node);
    KnownAreClusterResources(c, node);
    FilterMembers(Peering(node), SortedNodes(c));
    forall n | n in input.outboundNodes ensures n.name != node.name && PairAllowed(node, n.name, n.allowedInbounds) {
      assert Peering(node)(n);
    }
    forall p | p in input.policies ensures (p.action == ROUTE || p.action == REJECT) && HasRole(node, Inbound) {
      AdmittedFacts(c, node, p);
    }
    if input.policies != [] { assert input.policies[0] in input.policies; }
  }

  // ---------------------------------------------------------------- emitted tags

  ghost predicate UniqueTags(os: seq<Exit>) {
    forall i, j :: 0 <= i < j < |os| ==> os[i].tag != os[j].tag
  }

  lemma TagsOfConcat(a: seq<Exit>, b: seq<Exit>)
    ensures Tags(a + b) == Tags(a) + Tags(b)
  {}

  lemma SingleTag(o: Exit)
    ensures Tags([o]) == {o.tag}
  {
    assert o in [o];
  }

  /** Deduplication keeps every tag, once. */
  lemma {:induction false} DedupFacts(os: seq<Exit>)
    ensures Tags(Dedup(os)) == Tags(os) && UniqueTags(Dedup(os))
    ensures forall o :: o in Dedup(os) ==> o in os
  {
    if os != [] {
      var front, o := os[..|os| - 1], os[|os| - 1];
      DedupFacts(front);
      var kept := Dedup(front);
      assert Dedup(os) == kept + (if o.tag in Tags(front) then [] else [o]);
      hide Dedup;
      assert os == front + [o];
      TagsOfConcat(front, [o]);
      SingleTag(o);
      if o.tag !in Tags(front) {
        TagsOfConcat(kept, [o]);
        assert forall i :: 0 <= i < |kept| ==> kept[i].tag in Tags(kept);
      } else {
        assert kept + [] == kept;
      }
    }
  }

  lemma {:induction false} RouteFinalEmitted(os: seq<Exit>)
    ensures RouteFinal(os) == DIRECT || RouteFinal(os) in Tags(os)
  {
    if os != [] { RouteFinalEmitted(os[1..]); }
  }

  lemma {:induction false} PeerExitTags(input: Input, nodes: seq<Node>)
    requires forall n :: n in nodes ==> PairAllowed(input.node, n.name, n.allowedInbounds)
    ensures forall t :: t in Tags(PeerExits(input, nodes)) <==> exists n :: n in nodes && n.relayPort != 0 && t == OutboundTag(n.name)
  {
    if nodes != [] {
      var front, n := nodes[..|nodes| - 1], nodes[|nodes| - 1];
      PeerExitTags(input, front);
      assert nodes == front + [n];
      TagsOfConcat(PeerExits(input, front), if n.relayPort != 0 then [RelayExit(input, n)] else []);
      if n.relayPort != 0 { SingleTag(RelayExit(input, n)); }
    }
  }

  lemma ExternalExitTags(input: Input, es: seq<External>)
    ensures forall t :: t in Tags(ExternalExits(input, es)) <==> exists e :: e in es && t == OutboundTag(e.name)
  {
    var xs := ExternalExits(input, es);
    forall t ensures t in Tags(xs) <==> exists e :: e in es && t == OutboundTag(e.name) {
      if t in Tags(xs) {
        var i :| 0 <= i < |xs| && xs[i].tag == t;
        assert es[i] in es;
      }
      if e :| e in es && t == OutboundTag(e.name) {
        var i :| 0 <= i < |es| && es[i] == e;
        assert xs[i] in xs;
      }
    }
  }

  /** A policy target has an outbound exactly when it is usable. */
  lemma TargetExitUsable(input: Input, name: string)
    requires Gated(input) && name != ""
    ensures Usable(input, name) ==> |TargetExit(input, name)| == 1 && TargetExit(input, name)[0].tag == OutboundTag(name)
    ensures !Usable(input, name) ==> TargetExit(input, name) == []
  {}

  ghost predicate RoutesTo(input: Input, ps: seq<Policy>, name: string) {
    exists p :: p in ps && p.action == ROUTE && Egress(input, p) == name
  }

  lemma {:induction false} PolicyExitTags(input: Input, ps: seq<Policy>, name: string)
    requires Gated(input)
    ensures OutboundTag(name) in Tags(PolicyExits(input, ps)) <==> RoutesTo(input, ps, name) && Usable(input, name)
  {
    if ps != [] {
      var front, p := ps[..|ps| - 1], ps[|ps| - 1];
      PolicyExitTags(input, front, name);
      assert ps == front + [p];
      var e := Egress(input, p);
      hide TargetExit, Egress, Usable, OutboundTag, KeyedByName;
      assert RoutesTo(input, ps, name) <==> RoutesTo(input, front, name) || (p.action == ROUTE && e == name);
      if p.action == ROUTE && e != "" {
        TargetExitUsable(input, e);
        OutboundTagInjective(e, name);
        assert e in RouteEgresses(input, front) <==> RoutesTo(input, front, e);
        PolicyExitTagsStep(input, front, p, name);
      }
    }
  }

  lemma PolicyExitTagsStep(input: Input, front: seq<Policy>, p: Policy, name: string)
    ensures var more := if p.action == ROUTE && Egress(input, p) != "" && Egress(input, p) !in RouteEgresses(input, front)
                        then TargetExit(input, Egress(input, p)) else [];
            PolicyExits(input, front + [p]) == PolicyExits(input, front) + more
            && Tags(PolicyExits(input, front + [p])) == Tags(PolicyExits(input, front)) + Tags(more)
  {
    assert (front + [p])[..|front|] == front;
  }

  lemma PeerTags(input: Input, name: string)
    requires Gated(input)
    ensures OutboundTag(name) in Tags(PeerExits(input, input.outboundNodes)) <==> name in PeerNames(input.outboundNodes)
  {
    PeerExitTags(input, input.outboundNodes);
    forall m ensures OutboundTag(name) == OutboundTag(m) <==> name == m { OutboundTagInjective(name, m); }
  }

  lemma ExternalTags(input: Input, es: seq<External>, name: string)
    ensures OutboundTag(name) in Tags(ExternalExits(input, es)) <==> name in ExternalNames(es)
  {
    ExternalExitTags(input, es);
    ExternalNamesMembers(es, name);
    forall m ensures OutboundTag(name) == OutboundTag(m) <==> name == m { OutboundTagInjective(name, m); }
  }

  lemma SelfTags(node: Node, own: bool, name: string)
    ensures OutboundTag(name) in Tags(if own then [Direct(OutboundTag(node.name))] else []) <==> own && name == node.name
    ensures OutboundTag(name) !in Tags([Direct(DIRECT)])
  {
    SingleTag(Direct(OutboundTag(node.name)));
    SingleTag(Direct(DIRECT));
    OutboundTagInjective(name, node.name);
    TagShapes(name);
  }

  lemma RoutesToSorted(input: Input, name: string)
    ensures RoutesTo(input, SortedPolicies(input), name) <==> RoutesTo(input, input.policies, name)
  {
    hide SortBy, Egress;
    PolicyLeIsOrder();
    SortMembers(input.policies, PolicyLe);
  }

  /** Exactly which target tags a node emits. */
  lemma EmittedTargets(input: Input, name: string)
    requires Gated(input) && HasRole(input.node, Inbound)
    ensures OutboundTag(name) in Tags(AllExits(input)) <==>
            || name in PeerNames(input.outboundNodes)
            || name in ExternalNames(UsableExternals(input, input.externals))
            || (RoutesTo(input, input.policies, name) && Usable(input, name))
            || (IsSelfExit(input.node) && SelfExitAllowed(input.node) && name == input.node.name)
  {
    hide Gated, UsableExternals, PeerExits, ExternalExits, PolicyExits, OutboundTag, Usable, RoutesTo, PeerNames, SortedPolicies, Tags, ExternalNames, IsSelfExit, SelfExitAllowed;
    var es, ps, own := UsableExternals(input, input.externals), SortedPolicies(input), IsSelfExit(input.node) && SelfExitAllowed(input.node);
    var peers, exts, pols := PeerExits(input, input.outboundNodes), ExternalExits(input, es), PolicyExits(input, ps);
    var self := if own then [Direct(OutboundTag(input.node.name))] else [];
    PeerTags(input, name);
    ExternalTags(input, es, name);
    PolicyExitTags(input, ps, name);
    RoutesToSorted(input, name);
    SelfTags(input.node, own, name);
    TagsConcat([peers, exts, pols, self, [Direct(DIRECT)]]);
    assert AllExits(input) == peers + exts + pols + self + [Direct(DIRECT)];
  }

  lemma ExternalNamesMembers(es: seq<External>, name: string)
    ensures name in ExternalNames(es) <==> exists e :: e in es && e.name == name
  {
    if name in ExternalNames(es) {
      var i :| 0 <= i < |es| && ExternalNames(es)[i] == name;
      assert es[i] in es;
    }
    if e :| e in es && e.name == name {
      var i :| 0 <= i < |es| && es[i] == e;
      assert ExternalNames(es)[i] == name;
    }
  }

  lemma TagsConcat(parts: seq<seq<Exit>>)
    requires |parts| == 5
    ensures Tags(parts[0] + parts[1] + parts[2] + parts[3] + parts[4])
            == Tags(parts[0]) + Tags(parts[1]) + Tags(parts[2]) + Tags(parts[3]) + Tags(parts[4])
  {}

  lemma TagShapes(name: string)
    ensures OutboundTag(name) != DIRECT
  {
    assert OutboundTag(name)[0] == 'o' && DIRECT[0] == 'd';
  }

  // ---------------------------------------------------------------- rule targets

  /** Every routing rule names a policy target or a provisioned target. */
  lemma {:induction false} PolicyRuleTargets(input: Input, ps: seq<Policy>, r: Rule)
    requires r in PolicyRules(input, ps) && r.action != REJECT
    requires forall p :: p in ps ==> p.action == ROUTE || p.action == REJECT
    ensures exists n :: r.outbound == OutboundTag(n) && RoutesTo(input, ps, n) && Usable(input, n)
  {
    var front, p := ps[..|ps| - 1], ps[|ps| - 1];
    assert ps == front + [p];
    if r in PolicyRules(input, front) {
      PolicyRuleTargets(input, front, r);
      var n :| r.outbound == OutboundTag(n) && RoutesTo(input, front, n) && Usable(input, n);
      assert RoutesTo(input, ps, n);
    } else {
      assert r in RulesOf(input, p);
      assert RoutesTo(input, ps, Egress(input, p));
    }
  }

  lemma {:induction false} GenericRuleTargets(input: Input, targets: seq<string>, r: Rule)
    ensures r in GenericRules(input, targets) <==> exists t :: t in targets && r in GenericRule(input, t)
  {
    if targets != [] {
      var front, t := targets[..|targets| - 1], targets[|targets| - 1];
      GenericRuleTargets(input, front, r);
      assert targets == front + [t];
    }
  }

  ghost predicate RulesClosed(c: Config) {
    forall r :: r in c.rules && r.action != REJECT ==> r.outbound in Tags(c.outbounds)
  }

  /** A dual-role node whose own exit is not whitelisted, still reachable by some user, and no policy's target. */
  ghost predicate SelfDangles(input: Input) {
    && IsSelfExit(input.node) && !SelfExitAllowed(input.node)
    && (exists u :: u in input.users && MayUse(input, u, input.node.name))
    && !(RoutesTo(input, input.policies, input.node.name) && Usable(input, input.node.name))
  }

  lemma RoutesToPolicyTarget(input: Input, name: string)
    ensures name in PolicyTargets(input, input.policies) <==> RoutesTo(input, input.policies, name) && Usable(input, name)
  {}

  lemma PolicyRuleClosed(input: Input, r: Rule)
    requires Gated(input) && r in PolicyRules(input, SortedPolicies(input)) && r.action != REJECT
    ensures r.outbound in Tags(AllExits(input))
  {
    var ps := SortedPolicies(input);
    PolicyLeIsOrder();
    SortMembers(input.policies, PolicyLe);
    PolicyRuleTargets(input, ps, r);
    var n :| r.outbound == OutboundTag(n) && RoutesTo(input, ps, n) && Usable(input, n);
    assert RoutesTo(input, input.policies, n);
    EmittedTargets(input, n);
  }

  lemma GenericRuleClosed(input: Input, t: string)
    requires Gated(input) && HasRole(input.node, Inbound) && t in Targets(input, IsSelfExit(input.node))
    ensures OutboundTag(t) in Tags(AllExits(input)) || (t == input.node.name && IsSelfExit(input.node) && !SelfExitAllowed(input.node))
  {
    TargetMembers(input, IsSelfExit(input.node));
    RoutesToPolicyTarget(input, t);
    EmittedTargets(input, t);
  }

  /** Any routing rule is closed, except the node's own. */
  lemma RuleClosedUnlessSelf(input: Input, r: Rule)
    requires Gated(input) && r in ConfigOf(input).rules && r.action != REJECT
    ensures || r.outbound in Tags(ConfigOf(input).outbounds)
            || (r.outbound == OutboundTag(input.node.name) && IsSelfExit(input.node) && !SelfExitAllowed(input.node)
                && AuthUsers(input, input.users, input.node.name) != [])
  {
    hide PolicyRules, GenericRules, Targets, Dedup, AllExits, Tags, SortBy, AuthUsers, OutboundTag, Relays, ClientListeners, RouteFinal;
    DedupFacts(AllExits(input));
    if r in PolicyRules(input, SortedPolicies(input)) {
      PolicyRuleClosed(input, r);
    } else {
      var targets := Targets(input, IsSelfExit(input.node));
      assert r in GenericRules(input, targets);
      GenericRuleTargets(input, targets, r);
      var t :| t in targets && r in GenericRule(input, t);
      GenericRuleClosed(input, t);
    }
  }

  lemma SelfDanglesBreaks(input: Input)
    requires Gated(input) && SelfDangles(input)
    ensures !RulesClosed(ConfigOf(input))
  {
    var name, targets := input.node.name, Targets(input, true);
    DedupFacts(AllExits(input));
    TargetMembers(input, true);
    var u :| u in input.users && MayUse(input, u, name);
    assert VirtualUser(u.name, name) in AuthUsers(input, input.users, name);
    var r := Rule([], AuthUsers(input, input.users, name), NO_CRITERIA, "", OutboundTag(name));
    assert r in GenericRule(input, name);
    GenericRuleTargets(input, targets, r);
    EmittedTargets(input, name);
    SelfIsNoExternal(input, input.externals);
    assert r in ConfigOf(input).rules && r.action != REJECT;
  }

  lemma {:induction false} SelfIsNoExternal(input: Input, es: seq<External>)
    ensures input.node.name !in ExternalNames(UsableExternals(input, es))
  {
    if es != [] { SelfIsNoExternal(input, es[..|es| - 1]); }
  }

  lemma FinalEmitted(input: Input)
    ensures ConfigOf(input).final in Tags(ConfigOf(input).outbounds)
  {
    DedupFacts(AllExits(input));
    RouteFinalEmitted(Dedup(AllExits(input)));
    assert Direct(DIRECT) in AllExits(input);
  }

  /** Emitted tags are unique, the final tag is emitted, and every rule target is emitted unless the node's own rule dangles. */
  lemma ReferenceClosure(input: Input)
    requires Gated(input)
    ensures UniqueTags(ConfigOf(input).outbounds)
    ensures ConfigOf(input).final in Tags(ConfigOf(input).outbounds)
    ensures RulesClosed(ConfigOf(input)) <==> !SelfDangles(input)
  {
    DedupFacts(AllExits(input));
    FinalEmitted(input);
    if SelfDangles(input) {
      SelfDanglesBreaks(input);
    } else {
      var cfg := ConfigOf(input);
      forall r | r in cfg.rules && r.action != REJECT ensures r.outbound in Tags(cfg.outbounds) {
        RuleClosedUnlessSelf(input, r);
        if r.outbound !in Tags(cfg.outbounds) {
          var name := input.node.name;
          var v := AuthUsers(input, input.users, name)[0];
          assert v in AuthUsers(input, input.users, name);
          EmittedTargets(input, name);
        }
      }
    }
  }

  /** On a collected input, with statuses absent or fresh: closed unless the whitelist leaves the node itself out,
      some user's group permits it, and no admitted policy resolves to it with a relay port. */
  lemma ClusterReferenceClosure(c: Cluster, node: Node)
    requires WellFormed(c) && node in c.nodes
    requires FreshStatuses(c, node)
    ensures RulesClosed(ConfigOf(InputOf(c, node))) <==>
            !(&& IsSelfExit(node) && !SelfExitAllowed(node)
              && (exists u :: u in c.users && GroupAllows(c, u, node.name))
              && !(node.relayPort > 0 && exists p :: AdmittedRoute(c, node, p) && GlobalTarget(c, p) == node.name))
  {
    var input := InputOf(c, node);
    CollectedIsGated(c, node);
    ReferenceClosure(input);
    if IsSelfExit(node) {
      SelfReachable(c, node);
      SelfRouted(c, node);
    }
  }

  lemma SelfReachable(c: Cluster, node: Node)
    requires WellFormed(c) && HasRole(node, Inbound)
    ensures (exists u :: u in InputOf(c, node).users && MayUse(InputOf(c, node), u, node.name))
            <==> (exists u :: u in c.users && GroupAllows(c, u, node.name))
  {
    SortedMembers(c);
    forall u | u in c.users
      ensures u in InputOf(c, node).users && (MayUse(InputOf(c, node), u, node.name) <==> GroupAllows(c, u, node.name))
    {
      MayUseIsGroupAllows(c, node, u, node.name);
    }
  }

  lemma SelfRouted(c: Cluster, node: Node)
    requires WellFormed(c) && node in c.nodes && IsSelfExit(node)
    requires FreshStatuses(c, node)
    ensures var input := InputOf(c, node);
            RoutesTo(input, input.policies, node.name) && Usable(input, node.name)
            <==> node.relayPort > 0 && exists p :: AdmittedRoute(c, node, p) && GlobalTarget(c, p) == node.name
  {
    var input := InputOf(c, node);
    RoutesToSelf(c, node);
    if p :| AdmittedRoute(c, node, p) && GlobalTarget(c, p) == node.name {
      SelfUsable(c, node, p);
    }
  }

  lemma RoutesToSelf(c: Cluster, node: Node)
    requires WellFormed(c)
    requires FreshStatuses(c, node)
    ensures RoutesTo(InputOf(c, node), AdmittedPolicies(c, node), node.name) <==> exists p :: AdmittedRoute(c, node, p) && GlobalTarget(c, p) == node.name
  {
    forall p | AdmittedRoute(c, node, p) ensures Egress(InputOf(c, node), p) == GlobalTarget(c, p) {
      AdmittedFacts(c, node, p);
      EgressIsGlobalIffFresh(c, node, p);
    }
  }

  lemma SelfUsable(c: Cluster, node: Node, p: Policy)
    requires WellFormed(c) && node in c.nodes && IsSelfExit(node) && AdmittedRoute(c, node, p) && GlobalTarget(c, p) == node.name
    ensures Usable(InputOf(c, node), node.name) <==> node.relayPort > 0
  {
    AdmittedFacts(c, node, p);
    TargetIsKnown(c, node, p);
    KnownAreClusterResources(c, node);
    var input := InputOf(c, node);
    assert node.name !in input.externalsByName;
    assert input.nodesByName[node.name] == node;
  }

  // ---------------------------------------------------------------- which duplicate stays, and where unmatched traffic goes

  /** Of the entries under one tag the first stays. */
  lemma {:induction false} DedupKeepsFirst(os: seq<Exit>, o: Exit)
    ensures o in Dedup(os) <==> exists k :: 0 <= k < |os| && os[k] == o && forall j :: 0 <= j < k ==> os[j].tag != o.tag
  {
    if os != [] {
      var front, last := os[..|os| - 1], os[|os| - 1];
      DedupKeepsFirst(front, o);
      assert last.tag in Tags(front) <==> exists j :: 0 <= j < |front| && front[j].tag == last.tag;
      assert forall k :: 0 <= k < |front| ==> os[k] == front[k];
      hide Tags;
    }
  }

  lemma {:induction false} FinalIsFirst(os: seq<Exit>, k: nat)
    requires k < |os| && os[k].tag != DIRECT && os[k].tag != "" && forall j :: 0 <= j < k ==> os[j].tag == DIRECT || os[j].tag == ""
    ensures RouteFinal(os) == os[k].tag
  {
    if k > 0 {
      assert os[1..][k - 1] == os[k];
      FinalIsFirst(os[1..], k - 1);
    }
  }

  lemma {:induction false} FinalIsDirect(os: seq<Exit>)
    requires forall o :: o in os ==> o.tag == DIRECT || o.tag == ""
    ensures RouteFinal(os) == DIRECT
  {
    if os != [] {
      assert os[0] in os;
      FinalIsDirect(os[1..]);
    }
  }

  ghost predicate FirstProxy(os: seq<Exit>, k: int)
    requires 0 <= k < |os|
  {
    os[k].tag !in {"direct", ""} && forall j :: 0 <= j < k ==> os[j].tag in {"direct", ""}
  }

  /** Unmatched traffic goes direct as soon as there is a rule; otherwise to the first outbound that is not direct. */
  lemma FinalTag(input: Input)
    ensures var cfg := ConfigOf(input);
            if cfg.rules != [] then cfg.final == "direct"
            else && (forall k :: 0 <= k < |cfg.outbounds| && FirstProxy(cfg.outbounds, k) ==> cfg.final == cfg.outbounds[k].tag)
                 && ((forall o :: o in cfg.outbounds ==> o.tag in {"direct", ""}) ==> cfg.final == "direct")
  {
    var os := ConfigOf(input).outbounds;
    assert ConfigOf(input).rules == [] ==> ConfigOf(input).final == RouteFinal(os);
    assert ConfigOf(input).rules != [] ==> ConfigOf(input).final == DIRECT;
    hide ConfigOf, RouteFinal;
    forall k | 0 <= k < |os| && FirstProxy(os, k) ensures RouteFinal(os) == os[k].tag { FinalIsFirst(os, k); }
    if forall o :: o in os ==> o.tag in {"direct", ""} { FinalIsDirect(os); }
  }
}
