/** What a compiled config decides, without naming the order or the builders it came from. */
module Deciding {

  import opened Ordering
  import opened Resources
  import opened Intent
  import opened Engine
  import opened Routing

  // ---------------------------------------------------------------- the order of policies

  /** At k the first name differs from the second and comes before it. */
  ghost predicate DiffersAt(a: string, b: string, k: nat) {
    k <= |a| && k < |b| && a[..k] == b[..k] && (k == |a| || a[k] < b[k])
  }

  lemma DiffersBelow(c: char, a: string, b: string, k: nat)
    ensures DiffersAt([c] + a, [c] + b, k + 1) <==> DiffersAt(a, b, k)
    ensures !DiffersAt([c] + a, [c] + b, 0)
  {
    if k <= |a| && k < |b| {
      assert ([c] + a)[..k + 1] == [c] + a[..k] && ([c] + b)[..k + 1] == [c] + b[..k];
      assert ([c] + a[..k])[1..] == a[..k] && ([c] + b[..k])[1..] == b[..k];
    }
  }

  lemma {:induction false} StrLeDiffers(a: string, b: string)
    ensures StrLe(a, b) <==> a == b || exists k: nat :: DiffersAt(a, b, k)
  {
    forall k: nat | k > 0 && DiffersAt(a, b, k) ensures a != [] && b != [] && a[0] == b[0] {
      assert a[..k][0] == a[0] && b[..k][0] == b[0];
    }
    if a == [] || b == [] || a[0] != b[0] {
      assert DiffersAt(a, b, 0) <==> b != [] && (a == [] || a[0] < b[0]);
    } else {
      var c, s, t := a[0], a[1..], b[1..];
      assert a == [c] + s && b == [c] + t;
      StrLeDiffers(s, t);
      forall k: nat ensures DiffersAt(a, b, k + 1) <==> DiffersAt(s, t, k) { DiffersBelow(c, s, t, k); }
      DiffersBelow(c, s, t, 0);
      hide DiffersAt;
      if k: nat :| DiffersAt(s, t, k) { assert DiffersAt(a, b, k + 1); }
      if k: nat :| DiffersAt(a, b, k) { assert DiffersAt(s, t, k - 1); }
    }
  }

  lemma StrLeIsBefore(a: string, b: string)
    ensures StrLe(a, b) <==> a == b || Before(a, b)
  {
    StrLeDiffers(a, b);
    hide StrLe;
    if k: nat :| DiffersAt(a, b, k) { assert Before(a, b); }
    if Before(a, b) {
      var k: nat :| k <= |a| && k < |b| && a[..k] == b[..k] && (k == |a| || a[k] < b[k]);
      assert DiffersAt(a, b, k);
    }
  }

  lemma PolicyLeIsPrecedes(p: Policy, r: Policy)
    requires p.name != r.name
    ensures PolicyLe(p, r) <==> Precedes(p, r)
    ensures !(Precedes(p, r) && Precedes(r, p))
  {
    StrLeIsBefore(p.name, r.name);
    StrLeIsBefore(r.name, p.name);
    if StrLe(p.name, r.name) && StrLe(r.name, p.name) { StrLeAntisymmetric(p.name, r.name); }
  }

  // ---------------------------------------------------------------- the deciding policy

  /** An active policy decides what traffic to n does when it hits the destination, or rejects the rest of n's traffic. */
  ghost predicate Decides(input: Input, p: Policy, n: string, q: Request) {
    && p in input.policies && Active(input, p)
    && (Hits(p.criteria, q) || (p.action == "route" && p.fallbackAction == "reject" && Egress(input, p) == n))
  }

  ghost predicate DecidesFirst(input: Input, p: Policy, n: string, q: Request) {
    Decides(input, p, n, q) && forall r :: Decides(input, r, n, q) && r != p ==> Precedes(p, r)
  }

  ghost function EffectOf(input: Input, p: Policy, q: Request): Decision {
    if p.action != "reject" && Hits(p.criteria, q) then Via(OutboundTag(Egress(input, p))) else Rejected
  }

  /** A policy list reads as its first deciding policy does; k is that policy's place, or the list's length. */
  lemma {:induction false} ReferenceWalk(input: Input, ps: seq<Policy>, k: nat, n: string, q: Request)
    requires forall p :: p in ps ==> p in input.policies
    requires k <= |ps| && (forall j :: 0 <= j < k ==> !Decides(input, ps[j], n, q)) && (k < |ps| ==> Decides(input, ps[k], n, q))
    ensures Reference(input, ps, n, q) == if k < |ps| then EffectOf(input, ps[k], q) else Via(OutboundTag(n))
  {
    if ps != [] {
      assert ps[0] in ps;
      if k > 0 {
        assert forall j :: 0 <= j < k - 1 ==> ps[1..][j] == ps[j + 1];
        ReferenceWalk(input, ps[1..], k - 1, n, q);
      }
    }
  }

  /** The place of the first deciding policy of a list. */
  lemma {:induction false} FirstIndex(input: Input, ps: seq<Policy>, n: string, q: Request) returns (k: nat)
    ensures k <= |ps| && (forall j :: 0 <= j < k ==> !Decides(input, ps[j], n, q)) && (k < |ps| ==> Decides(input, ps[k], n, q))
  {
    hide Decides;
    if ps == [] || Decides(input, ps[0], n, q) {
      k := 0;
    } else {
      k := FirstIndex(input, ps[1..], n, q);
      k := k + 1;
    }
  }

  lemma FirstIsLeast(input: Input, ps: seq<Policy>, k: nat, n: string, q: Request)
    requires ps == SortedPolicies(input) && DistinctPolicies(input.policies)
    requires k < |ps| && Decides(input, ps[k], n, q) && forall j :: 0 <= j < k ==> !Decides(input, ps[j], n, q)
    ensures DecidesFirst(input, ps[k], n, q)
  {
    PolicyLeIsOrder();
    SortBySorts(input.policies, PolicyLe);
    SortMembers(input.policies, PolicyLe);
    hide SortBy, IsOrder, Decides, PolicyLe, Precedes;
    var p := ps[k];
    assert p in ps;
    forall r | r in input.policies && Decides(input, r, n, q) && r != p ensures Precedes(p, r) {
      var j :| 0 <= j < |ps| && ps[j] == r;
      assert j > k && PolicyLe(p, r);
      PolicyLeIsPrecedes(p, r);
    }
    DecidersAreListed(input, n, q);
  }

  lemma DecidersAreListed(input: Input, n: string, q: Request)
    ensures forall p :: Decides(input, p, n, q) ==> p in input.policies
  {}

  lemma FirstIsUnique(input: Input, p: Policy, r: Policy, n: string, q: Request)
    requires DistinctPolicies(input.policies) && DecidesFirst(input, p, n, q) && DecidesFirst(input, r, n, q)
    ensures p == r
  {
    if p != r {
      assert Precedes(p, r) && Precedes(r, p);
      PolicyLeIsPrecedes(p, r);
    }
  }

  /** Evaluating the compiled rules for u#n: the deciding policy of least priority, and least name among those, decides;
      without one the traffic leaves by outbound-n. */
  lemma LeastPolicyDecides(input: Input, u: User, n: string, q: Request)
    requires HashFreeUsers(input.users) && Provisioned(input, u, n) && DistinctPolicies(input.policies)
    requires q.inbound == InboundTag(input.node) && q.identity == VirtualUser(u.name, n)
    ensures (forall p :: !Decides(input, p, n, q)) ==> Evaluate(ConfigOf(input), q) == Via(OutboundTag(n))
    ensures (exists p :: Decides(input, p, n, q)) ==> exists p :: DecidesFirst(input, p, n, q)
    ensures forall p :: DecidesFirst(input, p, n, q) ==> Evaluate(ConfigOf(input), q) == EffectOf(input, p, q)
  {
    var ps := SortedPolicies(input);
    FirstMatchRefinement(input, u, n, q);
    PolicyLeIsOrder();
    SortMembers(input.policies, PolicyLe);
    hide SortBy, IsOrder, Provisioned, ConfigOf, Evaluate, EffectOf, Decides, DecidesFirst;
    var k := FirstIndex(input, ps, n, q);
    ReferenceWalk(input, ps, k, n, q);
    DecidersAreListed(input, n, q);
    if k < |ps| {
      FirstIsLeast(input, ps, k, n, q);
      forall r | DecidesFirst(input, r, n, q) ensures r == ps[k] { FirstIsUnique(input, r, ps[k], n, q); }
    }
    DecidesFirstDecides(input, n, q);
  }

  lemma DecidesFirstDecides(input: Input, n: string, q: Request)
    ensures forall p :: DecidesFirst(input, p, n, q) ==> Decides(input, p, n, q)
  {}

  lemma FirstRejectRejects(input: Input, u: User, n: string, q: Request, p: Policy)
    requires HashFreeUsers(input.users) && Provisioned(input, u, n) && DistinctPolicies(input.policies)
    requires q.inbound == InboundTag(input.node) && q.identity == VirtualUser(u.name, n)
    requires Decides(input, p, n, q) && p.action == "reject"
    requires forall r :: Decides(input, r, n, q) && r != p ==> Precedes(p, r)
    ensures Evaluate(ConfigOf(input), q) == Rejected
  {
    hide ConfigOf, Evaluate, Decides, Precedes, Provisioned, Hits;
    LeastPolicyDecides(input, u, n, q);
    assert DecidesFirst(input, p, n, q);
  }

  // ---------------------------------------------------------------- off the input's own fields

  lemma ValidIsSound(p: Policy)
    ensures CriteriaValid(p) <==> Sound(p)
  {
    var k := p.criteria;
    assert k == Criteria(k.domain, k.domainSuffix, k.domainRegex, k.ipCidr, k.ruleSet);
  }

  /** The external's protocol finds all it needs in the given secrets. */
  ghost predicate Complete(e: External, creds: map<string, SecretData>) {
    forall k :: k in Required(e) ==> e.name in creds && k in creds[e.name] && creds[e.name][k] != ""
  }

  lemma RequiredIsComplete(e: External, creds: map<string, SecretData>)
    ensures HasRequiredCreds(e, CredsOf(creds, e.name)) <==> Complete(e, creds)
  {
    var mine := CredsOf(creds, e.name);
    assert forall k :: Has(mine, k) <==> e.name in creds && k in creds[e.name] && creds[e.name][k] != "";
    assert Complete(e, creds) <==> forall k :: k in Required(e) ==> Has(mine, k);
    hide Has, Complete;
  }

  ghost predicate PicksNode(input: Input, p: Policy, x: string) {
    x in input.nodesByName && Outbound in input.nodesByName[x].roles && Picks(p.egress, x, input.nodesByName[x].labels)
  }

  ghost predicate PicksExternal(input: Input, p: Policy, x: string) {
    x in input.externalsByName && Picks(p.egress, x, input.externalsByName[x].labels)
  }

  /** The one node or external the policy picks; a name that is both counts twice. */
  ghost predicate PicksOnly(input: Input, p: Policy, t: string) {
    && (PicksNode(input, p, t) <==> !PicksExternal(input, p, t))
    && forall x :: PicksNode(input, p, x) || PicksExternal(input, p, x) ==> x == t
  }

  /** The target of a route policy: the recorded one, or failing that the only one it picks, if traffic can be sent there. */
  ghost predicate Leads(input: Input, p: Policy, t: string) {
    && t != "" && (if p.resolvedEgress != "" then t == p.resolvedEgress else PicksOnly(input, p, t))
    && (if t in input.nodesByName then Outbound in input.nodesByName[t].roles && input.nodesByName[t].relayPort > 0
        else t in input.externalsByName && Complete(input.externalsByName[t], input.externalCreds))
  }

  lemma OnlyOneLeft(ns: set<string>, es: set<string>, t: string)
    ensures |ns| + |es| == 1 && t in ns + es <==> (t in ns <==> t !in es) && forall x :: x in ns || x in es ==> x == t
  {
    if |ns| + |es| == 1 && t in ns + es {
      if t in ns { assert |ns - {t}| == |ns| - 1; } else { assert |es - {t}| == |es| - 1; }
    }
    if (t in ns <==> t !in es) && forall x :: x in ns || x in es ==> x == t {
      if t in ns {
        assert ns == {t} && es == {};
      } else {
        assert es == {t} && ns == {};
      }
    }
  }

  lemma PicksOnlyIsLocal(input: Input, p: Policy, t: string)
    requires t != ""
    ensures LocalEgress(input, p) == t <==> PicksOnly(input, p, t)
  {
    var ns, es := NodeMatches(input, p), ExternalMatches(input, p);
    forall x ensures (x in ns <==> PicksNode(input, p, x)) && (x in es <==> PicksExternal(input, p, x)) {}
    OnlyOneLeft(ns, es, t);
    hide NodeMatches, ExternalMatches, PicksNode, PicksExternal;
    if |ns| + |es| == 1 {
      var x := Pick(ns + es);
      OnlyOneLeft(ns, es, x);
    }
  }

  /** What decides, without the engine's own notions of activity and egress. */
  lemma DecidesIff(input: Input, p: Policy, n: string, q: Request)
    requires KeyedByName(input)
    ensures Decides(input, p, n, q) <==>
            && p in input.policies
            && (if p.action == "reject" then Hits(p.criteria, q)
                else exists t :: Leads(input, p, t) && (Hits(p.criteria, q) || (p.action == "route" && p.fallbackAction == "reject" && t == n)))
    ensures forall t :: Leads(input, p, t) ==> Egress(input, p) == t
  {
    forall t ensures Leads(input, p, t) <==> Egress(input, p) == t && Usable(input, t) { LeadsIsEgress(input, p, t); }
    hide Leads, Egress, Usable, Hits;
    if Usable(input, Egress(input, p)) { assert Leads(input, p, Egress(input, p)); }
  }

  lemma LeadsIsEgress(input: Input, p: Policy, t: string)
    requires KeyedByName(input)
    ensures Leads(input, p, t) <==> Egress(input, p) == t && Usable(input, t)
  {
    hide LocalEgress, PicksOnly, HasRequiredCreds, Complete;
    if t != "" { PicksOnlyIsLocal(input, p, t); }
    if t in input.externalsByName { RequiredIsComplete(input.externalsByName[t], input.externalCreds); }
  }
}
