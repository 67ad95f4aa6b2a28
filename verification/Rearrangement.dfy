/** What merging does to a template's route rules, and how route and DNS modes correspond. */
module Rearrangement {

  import opened Ordering
  import opened Resources
  import opened Json
  import opened Client
  import opened Template

  // ---------------------------------------------------------------- where each template rule lands

  lemma {:induction false} FilterPosition<T>(f: T -> bool, s: seq<T>, i: nat)
    requires i < |s| && f(s[i])
    ensures |Filter(f, s[..i])| < |Filter(f, s)| && Filter(f, s)[|Filter(f, s[..i])|] == s[i]
  {
    FilterSnoc(f, s, i);
    FilterConcat(f, s[..i + 1], s[i + 1..]);
    assert s == s[..i + 1] + s[i + 1..];
  }

  lemma FilterMonotone<T>(f: T -> bool, s: seq<T>, i: nat, j: nat)
    requires i < j <= |s| && f(s[i])
    ensures |Filter(f, s[..i])| < |Filter(f, s[..j])|
  {
    FilterSnoc(f, s, i);
    FilterConcat(f, s[..i + 1], s[i + 1..j]);
    assert s[..j] == s[..i + 1] + s[i + 1..j];
  }

  lemma AtThird<T>(a: seq<T>, b: seq<T>, c: seq<T>, rest: seq<T>, i: nat)
    requires i < |c|
    ensures (a + (b + (c + rest)))[|a| + |b| + i] == c[i]
  {}

  lemma AtLater<T>(a: seq<T>, b: seq<T>, c: seq<T>, rest: seq<T>, i: nat)
    requires i < |rest|
    ensures (a + (b + (c + rest)))[|a| + |b| + |c| + i] == rest[i]
  {}

  predicate InPrefix(original: seq<Json>, i: nat) { i < PrefixLength(original) }

  /** A template rule survives unless it is a non-domestic rule of the removed Proxy mode after the prefix. */
  predicate Survives(original: seq<Json>, i: nat)
    requires i < |original|
  {
    InPrefix(original, i) || IsDomesticDirect(original[i]) || IsOrdinary(original[i])
  }

  /** The index a surviving rule gets. */
  function Position(original: seq<Json>, inserted: nat, modes: nat, i: nat): nat
    requires i < |original| && Survives(original, i)
  {
    var n := PrefixLength(original);
    var tail := original[n..];
    if i < n then i
    else if IsDomesticDirect(original[i]) then n + inserted + |Filter(Domestic(), tail[..i - n])|
    else n + inserted + |Filter(Domestic(), tail)| + modes + |Filter(Ordinary(), tail[..i - n])|
  }

  /** Every surviving rule is found at its position, unchanged except for a rewritten proxy reference. */
  lemma RuleLands(original: seq<Json>, policyRules: seq<Json>, managed: bool, has: set<string>, i: nat)
    requires i < |original| && Survives(original, i)
    ensures var merged := MergedRules(original, policyRules, managed, has);
            var at := Position(original, |Inserted(policyRules, managed)|, |Modes(has)|, i);
            && at < |merged|
            && merged[at] == if InPrefix(original, i) || IsDomesticDirect(original[i]) then original[i] else Rewrite(original[i])
  {
    hide PrefixLength, Filter, Modes, Rewrite, Inserted, IsDomesticDirect, IsOrdinary;
    var n := PrefixLength(original);
    var tail := original[n..];
    var a, b, c, d, e := original[..n], Inserted(policyRules, managed), Filter(Domestic(), tail), Modes(has), RewriteAll(Filter(Ordinary(), tail));
    if i >= n {
      assert tail[i - n] == original[i];
      if IsDomesticDirect(original[i]) {
        FilterPosition(Domestic(), tail, i - n);
        AtThird(a, b, c, d + e, |Filter(Domestic(), tail[..i - n])|);
      } else {
        FilterPosition(Ordinary(), tail, i - n);
        var at := |Filter(Ordinary(), tail[..i - n])|;
        AtLater(a, b, c, d + e, |d| + at);
        assert (d + e)[|d| + at] == e[at];
      }
    }
  }

  /** Distinct template rules land apart, and rules of one kind keep their order. */
  lemma PositionsStable(original: seq<Json>, inserted: nat, modes: nat, i: nat, j: nat)
    requires i < j < |original| && Survives(original, i) && Survives(original, j)
    ensures Position(original, inserted, modes, i) != Position(original, inserted, modes, j)
    ensures (InPrefix(original, i) || IsDomesticDirect(original[i]) || !IsDomesticDirect(original[j]))
            ==> Position(original, inserted, modes, i) < Position(original, inserted, modes, j)
  {
    hide PrefixLength, Filter, IsDomesticDirect, IsOrdinary;
    var n := PrefixLength(original);
    var tail := original[n..];
    if i >= n {
      assert tail[i - n] == original[i] && tail[j - n] == original[j];
      if IsDomesticDirect(original[i]) {
        FilterMonotone(Domestic(), tail, i - n, j - n);
        FilterPosition(Domestic(), tail, i - n);
      } else {
        FilterMonotone(Ordinary(), tail, i - n, j - n);
      }
      if IsDomesticDirect(original[j]) { FilterPosition(Domestic(), tail, j - n); }
    } else if j >= n {
      assert |Filter(Domestic(), tail)| >= 0;
    }
  }

  /** The number of rules that survive among the first k. */
  function Survivors(original: seq<Json>, k: nat): nat
    requires k <= |original|
  {
    if k == 0 then 0 else Survivors(original, k - 1) + if Survives(original, k - 1) then 1 else 0
  }

  function KeptOf(tail: seq<Json>): nat { |Filter(Domestic(), tail)| + |Filter(Ordinary(), tail)| }

  lemma TailStep(tail: seq<Json>, i: nat)
    requires i < |tail|
    ensures KeptOf(tail[..i + 1]) == KeptOf(tail[..i]) + if IsDomesticDirect(tail[i]) || IsOrdinary(tail[i]) then 1 else 0
  {
    FilterSnoc(Domestic(), tail, i);
    FilterSnoc(Ordinary(), tail, i);
  }

  lemma {:induction false} SurvivorsOfPrefix(original: seq<Json>, k: nat)
    requires k <= PrefixLength(original)
    ensures Survivors(original, k) == k
  {
    hide PrefixLength, IsDomesticDirect, IsOrdinary;
    if k > 0 { SurvivorsOfPrefix(original, k - 1); }
  }

  lemma {:induction false} SurvivorsCount(original: seq<Json>, n: nat, k: nat)
    requires n == PrefixLength(original) && n + k <= |original|
    ensures Survivors(original, n + k) == n + KeptOf(original[n..][..k])
  {
    var tail := original[n..];
    if k == 0 {
      SurvivorsOfPrefix(original, n);
    } else {
      hide PrefixLength, KeptOf, IsDomesticDirect, IsOrdinary;
      SurvivorsCount(original, n, k - 1);
      assert tail[k - 1] == original[n + k - 1];
      TailStep(tail, k - 1);
    }
  }

  /** Nothing else is in the merged list: its length is what survives plus what is generated. */
  lemma MergedLength(original: seq<Json>, policyRules: seq<Json>, managed: bool, has: set<string>)
    ensures |MergedRules(original, policyRules, managed, has)|
            == Survivors(original, |original|) + |Inserted(policyRules, managed)| + |Modes(has)|
  {
    var n := PrefixLength(original);
    SurvivorsCount(original, n, |original| - n);
    assert original[n..][..|original| - n] == original[n..];
  }

  lemma CleanPart(original: seq<Json>, policyRules: seq<Json>, managed: bool, has: set<string>, x: Json)
    requires var tail := original[PrefixLength(original)..];
             x == RESOLVE || x in Filter(Domestic(), tail) || x in Modes(has) || x in RewriteAll(Filter(Ordinary(), tail))
    ensures Field(x, "outbound") != Str("proxy")
  {
    var tail := original[PrefixLength(original)..];
    FilterMembers(Domestic(), tail);
    if x in Modes(has) {
      var i :| 0 <= i < |Modes(has)| && Modes(has)[i] == x;
      ModesNameRegions(has, i);
    }
  }

  lemma PartMember<T>(a: seq<T>, b: seq<T>, c: seq<T>, d: seq<T>, e: seq<T>, k: nat)
    requires |a| + |b| <= k < |a| + |b| + |c| + |d| + |e|
    ensures var x := (a + (b + (c + (d + e))))[k]; x in c || x in d || x in e
  {
    if k < |a| + |b| + |c| {
      AtThird(a, b, c, d + e, k - |a| - |b|);
    } else {
      AtLater(a, b, c, d + e, k - |a| - |b| - |c|);
    }
  }

  /** After the preprocessing prefix and the policy rules, no rule refers to the removed proxy selector. */
  lemma NoDanglingProxy(original: seq<Json>, policyRules: seq<Json>, managed: bool, has: set<string>, k: nat)
    requires PrefixLength(original) + |policyRules| <= k < |MergedRules(original, policyRules, managed, has)|
    ensures Field(MergedRules(original, policyRules, managed, has)[k], "outbound") != Str("proxy")
  {
    var n := PrefixLength(original);
    var tail := original[n..];
    var a, b, c, d, e := original[..n], Inserted(policyRules, managed), Filter(Domestic(), tail), Modes(has), RewriteAll(Filter(Ordinary(), tail));
    var x := (a + (b + (c + (d + e))))[k];
    if k < n + |b| {
      assert x == b[k - n] == RESOLVE;
    } else {
      PartMember(a, b, c, d, e, k);
    }
    CleanPart(original, policyRules, managed, has, x);
  }

  lemma ModesNameRegions(has: set<string>, i: nat)
    requires i < |Modes(has)|
    ensures exists m :: m in MODES && m.tag in has && Field(Modes(has)[i], "outbound") == Str(m.tag)
  {
    var ms := AvailableModes(has);
    FilterMembers(IsAvailable(has), MODES);
    if i < |AutoRules(has)| {
      assert ms[0] in ms;
    } else {
      assert ms[i - |AutoRules(has)|] in ms;
    }
  }

  // ---------------------------------------------------------------- route modes and DNS modes

  /** The merged document of a template that opts into managed DNS. */
  lemma ManagedDocument(m: Object, policyRules: seq<Json>, os: seq<Object>, input: ClientInput, isAddress: string -> bool)
    requires HasServer(Servers(m), PROXY_DNS) && MergeWith(m, policyRules, os, input, isAddress).Ok?
    ensures var doc, has := MergeWith(m, policyRules, os, input, isAddress).value, TagSet(os);
            && Items(Field(Get(doc, "route"), "rules")) == RulesFor(m, policyRules, os)
            && (AutoSelector(has).Some? ==> Field(Get(doc, "route"), "final") == Str(AutoSelector(has).value))
            && Servers(doc) == WithLocal(ManagedServers(Servers(m), has), Servers(m), AnyBootstrap(os, isAddress))
            && Items(Field(Get(doc, "dns"), "rules")) == DnsRulesOf(Field(Get(m, "dns"), "rules"), has)
            && Conflict(Servers(m), AvailableModes(has)).None?
  {
    hide TemplateError, RulesFor, AutoSelector, HasServer, BootstrappedAll, ManagedServers, AnyBootstrap, DnsRulesOf, AvailableModes, Conflict;
  }

  lemma ManagedRest(m: Object, policyRules: seq<Json>, os: seq<Object>, input: ClientInput, isAddress: string -> bool)
    requires HasServer(Servers(m), PROXY_DNS) && MergeWith(m, policyRules, os, input, isAddress).Ok?
    ensures var doc := MergeWith(m, policyRules, os, input, isAddress).value;
            && Get(Fields(Get(doc, "route")), "default_domain_resolver") == Str(PROXY_DNS)
            && Get(doc, "outbounds") == Arr(ObjArray(BootstrappedAll(os, isAddress)))
  {
    hide TemplateError, RulesFor, AutoSelector, HasServer, BootstrappedAll, ManagedServers, AnyBootstrap, DnsRulesOf, AvailableModes, Conflict;
  }

  lemma AvailableMember(has: set<string>, m: Mode)
    requires m in MODES
    ensures m in AvailableModes(has) <==> m.tag in has
  {
    FilterMembers(IsAvailable(has), MODES);
  }

  lemma GeneratedModes(has: set<string>, m: Mode)
    requires m in MODES
    ensures ModeRule(m.name, m.tag) in RouteModeRules(AvailableModes(has)) <==> m.tag in has
    ensures DnsModeRule(m.name, RegionalTag(m)) in DnsModeRules(AvailableModes(has)) <==> m.tag in has
  {
    var ms := AvailableModes(has);
    AvailableMember(has, m);
    FilterMembers(IsAvailable(has), MODES);
    hide ModeRule, DnsModeRule, RegionalTag, AvailableModes;
    if m in ms {
      var i :| 0 <= i < |ms| && ms[i] == m;
      assert RouteModeRules(ms)[i] == ModeRule(m.name, m.tag) && DnsModeRules(ms)[i] == DnsModeRule(m.name, RegionalTag(m));
    }
    if ModeRule(m.name, m.tag) in RouteModeRules(ms) {
      var i :| 0 <= i < |ms| && RouteModeRules(ms)[i] == ModeRule(m.name, m.tag);
      RuleNames(ms[i], m);
      assert ms[i] in ms;
    }
    if DnsModeRule(m.name, RegionalTag(m)) in DnsModeRules(ms) {
      var i :| 0 <= i < |ms| && DnsModeRules(ms)[i] == DnsModeRule(m.name, RegionalTag(m));
      RuleNames(ms[i], m);
      assert ms[i] in ms;
    }
  }

  lemma RuleNames(a: Mode, b: Mode)
    requires a in MODES && b in MODES
    ensures ModeRule(a.name, a.tag) == ModeRule(b.name, b.tag) ==> a == b
    ensures DnsModeRule(a.name, RegionalTag(a)) == DnsModeRule(b.name, RegionalTag(b)) ==> a == b
  {
    if ModeRule(a.name, a.tag) == ModeRule(b.name, b.tag) {
      assert Field(ModeRule(a.name, a.tag), "clash_mode") == Field(ModeRule(b.name, b.tag), "clash_mode");
    }
    if DnsModeRule(a.name, RegionalTag(a)) == DnsModeRule(b.name, RegionalTag(b)) {
      assert Field(DnsModeRule(a.name, RegionalTag(a)), "clash_mode") == Field(DnsModeRule(b.name, RegionalTag(b)), "clash_mode");
    }
  }

  /** The DNS server of an available region dials through the selector its route mode rule names. */
  lemma RegionalServerDetour(servers: seq<Json>, has: set<string>, m: Mode)
    requires HasServer(servers, PROXY_DNS) && m in MODES && m.tag in has
    ensures exists s :: s in ManagedServers(servers, has) && HasTag(s, RegionalTag(m)) && Field(s, "detour") == Str(m.tag)
  {
    var ms := AvailableModes(has);
    AvailableMember(has, m);
    var i :| 0 <= i < |ms| && ms[i] == m;
    var k := ServerIndex(servers, PROXY_DNS);
    var proxyDns := WithDetour(servers[k].fields, AutoSelector(has));
    var s := RegionalServers(proxyDns, ms)[i];
    assert s in RegionalServers(proxyDns, ms);
    assert HasTag(s, RegionalTag(m)) && Field(s, "detour") == Str(m.tag);
  }

  lemma ProxyDnsDetour(servers: seq<Json>, has: set<string>)
    requires HasServer(servers, PROXY_DNS)
    ensures exists s :: s in ManagedServers(servers, has) && HasTag(s, PROXY_DNS)
                        && Field(s, "detour") == match AutoSelector(has) case Some(tag) => Str(tag) case None => Null
  {
    var k := ServerIndex(servers, PROXY_DNS);
    var s := Obj(WithDetour(servers[k].fields, AutoSelector(has)));
    assert ManagedServers(servers, has)[k] == s;
    assert HasTag(s, PROXY_DNS);
  }

  /** In a merged document: each region's route mode and DNS mode lead to one selector, and Auto's outbound,
      proxy-dns's detour and route.final coincide. */
  lemma ModesAgree(m: Object, policyRules: seq<Json>, os: seq<Object>, input: ClientInput, isAddress: string -> bool)
    requires HasServer(Servers(m), PROXY_DNS) && MergeWith(m, policyRules, os, input, isAddress).Ok?
    ensures var doc, has := MergeWith(m, policyRules, os, input, isAddress).value, TagSet(os);
            var rules, dnsRules := Items(Field(Get(doc, "route"), "rules")), Items(Field(Get(doc, "dns"), "rules"));
            && (forall mode :: mode in MODES && mode.tag in has ==>
                  && ModeRule(mode.name, mode.tag) in rules && DnsModeRule(mode.name, RegionalTag(mode)) in dnsRules
                  && exists s :: s in Servers(doc) && HasTag(s, RegionalTag(mode)) && Field(s, "detour") == Str(mode.tag))
            && (forall tag :: AutoSelector(has) == Some(tag) ==>
                  && ModeRule(AUTO, tag) in rules && DnsModeRule(AUTO, PROXY_DNS) in dnsRules && Field(Get(doc, "route"), "final") == Str(tag)
                  && exists s :: s in Servers(doc) && HasTag(s, PROXY_DNS) && Field(s, "detour") == Str(tag))
  {
    var has, servers := TagSet(os), Servers(m);
    ManagedDocument(m, policyRules, os, input, isAddress);
    assert forall r :: r in Modes(has) ==> r in RulesFor(m, policyRules, os);
    forall mode | mode in MODES && mode.tag in has
      ensures ModeRule(mode.name, mode.tag) in Modes(has)
      ensures exists s :: s in ManagedServers(servers, has) && HasTag(s, RegionalTag(mode)) && Field(s, "detour") == Str(mode.tag)
    {
      GeneratedModes(has, mode);
      RegionalServerDetour(servers, has, mode);
    }
    forall mode | mode in MODES && mode.tag in has ensures DnsModeRule(mode.name, RegionalTag(mode)) in DnsRulesOf(Field(Get(m, "dns"), "rules"), has) {
      GeneratedModes(has, mode);
    }
    ProxyDnsDetour(servers, has);
  }

  function Count(s: seq<Json>, j: Json): nat { multiset(s)[j] }

  lemma CountConcat(a: seq<Json>, b: seq<Json>, j: Json)
    ensures Count(a + b, j) == Count(a, j) + Count(b, j)
  {}

  /** The available modes are distinct, and so are their rules. */
  lemma ModeRulesOnce(has: set<string>)
    ensures NoDup(RouteModeRules(AvailableModes(has))) && NoDup(DnsModeRules(AvailableModes(has)))
  {
    var ms := AvailableModes(has);
    FilterNoDup(IsAvailable(has), MODES);
    FilterMembers(IsAvailable(has), MODES);
    hide AvailableModes, RouteModeRules, DnsModeRules, ModeRule, DnsModeRule;
    forall i, j | 0 <= i < j < |ms| ensures RouteModeRules(ms)[i] != RouteModeRules(ms)[j] && DnsModeRules(ms)[i] != DnsModeRules(ms)[j] {
      assert ms[i] in ms && ms[j] in ms;
      RuleNames(ms[i], ms[j]);
    }
  }

  lemma CountOnce(s: seq<Json>, j: Json)
    requires NoDup(s)
    ensures Count(s, j) == if j in s then 1 else 0
  {
    NoDupCount(s, j);
  }

  lemma AutoIsNoRegion(tag: string, mode: Mode)
    requires mode in MODES
    ensures ModeRule(AUTO, tag) != ModeRule(mode.name, mode.tag) && DnsModeRule(AUTO, PROXY_DNS) != DnsModeRule(mode.name, RegionalTag(mode))
  {
    assert Field(ModeRule(AUTO, tag), "clash_mode") != Field(ModeRule(mode.name, mode.tag), "clash_mode");
    assert Field(DnsModeRule(AUTO, PROXY_DNS), "clash_mode") != Field(DnsModeRule(mode.name, RegionalTag(mode)), "clash_mode");
  }

  lemma CountModes(has: set<string>, mode: Mode)
    requires mode in MODES
    ensures Count(Modes(has), ModeRule(mode.name, mode.tag)) == if mode.tag in has then 1 else 0
    ensures Count(DnsModeRules(AvailableModes(has)) + [DnsModeRule(AUTO, PROXY_DNS)], DnsModeRule(mode.name, RegionalTag(mode)))
            == if mode.tag in has then 1 else 0
  {
    var ms, r, d := AvailableModes(has), ModeRule(mode.name, mode.tag), DnsModeRule(mode.name, RegionalTag(mode));
    GeneratedModes(has, mode);
    ModeRulesOnce(has);
    CountOnce(RouteModeRules(ms), r);
    CountOnce(DnsModeRules(ms), d);
    forall tag ensures ModeRule(AUTO, tag) != r { AutoIsNoRegion(tag, mode); }
    AutoIsNoRegion("", mode);
    hide AvailableModes, ModeRule, DnsModeRule, RouteModeRules, DnsModeRules, AutoSelector, RegionalTag;
    CountConcat(AutoRules(has), RouteModeRules(ms), r);
    CountConcat(DnsModeRules(ms), [DnsModeRule(AUTO, PROXY_DNS)], d);
    CountOnce([DnsModeRule(AUTO, PROXY_DNS)], d);
  }

  /** The rules a template and the policies would have with no region available. */
  function RulesWithoutRegions(m: Object, policyRules: seq<Json>): seq<Json> {
    MergedRules(Items(Field(Get(m, "route"), "rules")), policyRules, HasServer(Servers(m), PROXY_DNS), {})
  }

  lemma RegionsAddModes(original: seq<Json>, policyRules: seq<Json>, managed: bool, has: set<string>, j: Json)
    ensures Count(MergedRules(original, policyRules, managed, has), j)
            == Count(MergedRules(original, policyRules, managed, {}), j) + Count(Modes(has), j)
  {
    var n := PrefixLength(original);
    var tail := original[n..];
    var a, b, c, e := original[..n], Inserted(policyRules, managed), Filter(Domestic(), tail), RewriteAll(Filter(Ordinary(), tail));
    NoRegionNoMode();
    hide PrefixLength, Filter, Inserted, Modes, RewriteAll, Count;
    CountParts(a, b, c, Modes(has), e, j);
    CountParts(a, b, c, [], e, j);
    CountEmpty(j);
  }

  lemma NoRegionNoMode()
    ensures Modes({}) == []
  {
    FilterMembers(IsAvailable({}), MODES);
    HasMember(AvailableModes({}));
    assert AvailableModes({}) == [];
  }

  lemma CountEmpty(j: Json)
    ensures Count([], j) == 0
  {}

  lemma CountParts(a: seq<Json>, b: seq<Json>, c: seq<Json>, d: seq<Json>, e: seq<Json>, j: Json)
    ensures Count(a + (b + (c + (d + e))), j) == Count(a, j) + Count(b, j) + Count(c, j) + Count(d, j) + Count(e, j)
  {
    hide Count;
    CountConcat(a, b + (c + (d + e)), j);
    CountConcat(b, c + (d + e), j);
    CountConcat(c, d + e, j);
    CountConcat(d, e, j);
  }

  /** The merged document of a template that does not opt in keeps the template's DNS. */
  lemma UnmanagedDocument(m: Object, policyRules: seq<Json>, os: seq<Object>, input: ClientInput, isAddress: string -> bool)
    requires !HasServer(Servers(m), PROXY_DNS) && MergeWith(m, policyRules, os, input, isAddress).Ok?
    ensures var doc := MergeWith(m, policyRules, os, input, isAddress).value;
            && Items(Field(Get(doc, "route"), "rules")) == RulesFor(m, policyRules, os)
            && Get(doc, "dns") == Get(m, "dns")
  {
    hide TemplateError, RulesFor, AutoSelector, HasServer;
  }

  /** In a merged document an available region has one generated route mode rule and, when the template opts into managed
      DNS, one generated DNS mode rule; an unavailable one has neither. Other templates keep their DNS as it is. */
  lemma ModesCorrespond(m: Object, policyRules: seq<Json>, os: seq<Object>, input: ClientInput, isAddress: string -> bool, mode: Mode)
    requires MergeWith(m, policyRules, os, input, isAddress).Ok? && mode in MODES
    ensures var doc, n := MergeWith(m, policyRules, os, input, isAddress).value, if mode.tag in TagSet(os) then 1 else 0;
            var route, dns := ModeRule(mode.name, mode.tag), DnsModeRule(mode.name, RegionalTag(mode));
            && Count(Items(Field(Get(doc, "route"), "rules")), route) == Count(RulesWithoutRegions(m, policyRules), route) + n
            && (if HasServer(Servers(m), PROXY_DNS)
                then Count(Items(Field(Get(doc, "dns"), "rules")), dns) == Count(Items(Field(Get(m, "dns"), "rules")), dns) + n
                else Get(doc, "dns") == Get(m, "dns"))
  {
    hide MergeWith, MergedRules, Count, ModeRule, DnsModeRule, DnsRulesOf, Modes, HasServer, Servers, RegionalTag;
    var has := TagSet(os);
    if HasServer(Servers(m), PROXY_DNS) {
      ManagedDocument(m, policyRules, os, input, isAddress);
      CountDnsModes(Field(Get(m, "dns"), "rules"), has, mode);
    } else {
      UnmanagedDocument(m, policyRules, os, input, isAddress);
    }
    RegionsAddModes(Items(Field(Get(m, "route"), "rules")), policyRules, HasServer(Servers(m), PROXY_DNS), has, ModeRule(mode.name, mode.tag));
    CountModes(has, mode);
  }

  lemma CountDnsModes(rules: Json, has: set<string>, mode: Mode)
    requires mode in MODES
    ensures var dns := DnsModeRule(mode.name, RegionalTag(mode));
            Count(DnsRulesOf(rules, has), dns) == Count(Items(rules), dns) + if mode.tag in has then 1 else 0
  {
    hide Count, DnsModeRule, DnsModeRules, AvailableModes, RegionalTag;
    CountModes(has, mode);
    var items, modes, auto := Items(rules), DnsModeRules(AvailableModes(has)), [DnsModeRule(AUTO, PROXY_DNS)];
    assert items + modes + auto == items + (modes + auto);
    CountConcat(items, modes + auto, DnsModeRule(mode.name, RegionalTag(mode)));
  }

  // ---------------------------------------------------------------- normalization

  /** No rule set keeps the removed field, its detour is kept where none was configured, and a second pass changes nothing. */
  lemma NormalizedSetFacts(j: Json)
    ensures !Field(NormalizedSet(j), "download_detour").Str?
    ensures Field(j, "download_detour").Str? && j.Obj? && "http_client" !in j.fields ==>
              Field(Field(NormalizedSet(j), "http_client"), "detour") == Field(j, "download_detour")
    ensures NormalizedSet(NormalizedSet(j)) == NormalizedSet(j)
  {}

  /** Normalizing a template a second time changes nothing. */
  lemma NormalizedOnce(m: Object)
    ensures Normalized(Normalized(m)) == Normalized(m)
  {
    var once := Normalized(m);
    NormalizedRouteOnce(Get(m, "route"));
    assert NormalizedDns(NormalizedDns(Get(m, "dns"))) == NormalizedDns(Get(m, "dns"));
    assert "dns" in once ==> once["dns" := once["dns"]] == once;
    assert "route" in once ==> once["route" := once["route"]] == once;
  }

  lemma NormalizedRouteOnce(route: Json)
    ensures NormalizedRoute(NormalizedRoute(route)) == NormalizedRoute(route)
  {
    if route.Obj? && Field(route, "rule_set").Arr? {
      var items := Field(route, "rule_set").items;
      forall i | 0 <= i < |items| ensures NormalizedSets(NormalizedSets(items))[i] == NormalizedSets(items)[i] {
        NormalizedSetFacts(items[i]);
      }
      assert NormalizedSets(NormalizedSets(items)) == NormalizedSets(items);
    }
  }
}
