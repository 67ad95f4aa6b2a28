/** Managed DNS in the merged document, and when a merge succeeds, both read off the template. */
module MergedDns {

  import opened Ordering
  import opened Resources
  import opened Json
  import opened Client
  import opened ClientDeciding
  import opened Template
  import opened Rearrangement
  import opened MergedDocument

  // ---------------------------------------------------------------- servers

  function Regions(has: set<string>): seq<string> {
    (if "hk" in has then ["hk"] else []) + (if "jp" in has then ["jp"] else []) + (if "us" in has then ["us"] else [])
  }

  predicate Tagged(s: Json, tag: string) { s.Obj? && "tag" in s.fields && s.fields["tag"] == Str(tag) }

  ghost predicate FirstTagged(servers: seq<Json>, tag: string, k: int) {
    0 <= k < |servers| && Tagged(servers[k], tag) && forall j :: 0 <= j < k ==> !Tagged(servers[j], tag)
  }

  /** The server of a region: proxy-dns under its own tag, dialled through the region's selector. */
  ghost predicate IsClone(s: Json, clone: Json, region: string) {
    && s.Obj? && clone.Obj? && KeepsBut(s.fields, clone.fields, {"tag", "detour"})
    && Get(clone.fields, "tag") == Str("proxy-dns-" + region) && Get(clone.fields, "detour") == Str(region)
  }

  /** Proxy-dns, at k, is dialled through the preferred region's selector; the other servers stay; the clones follow. */
  ghost predicate Managed(servers: seq<Json>, now: seq<Json>, has: set<string>, k: int) {
    && FirstTagged(servers, "proxy-dns", k) && |now| == |servers| + |Regions(has)|
    && (forall i :: 0 <= i < |servers| && i != k ==> now[i] == servers[i])
    && now[k].Obj? && KeepsBut(servers[k].fields, now[k].fields, {"detour"})
    && Get(now[k].fields, "detour") == (if Preferred(has).Some? then Str(Preferred(has).value) else Null)
    && (forall j :: 0 <= j < |Regions(has)| ==> IsClone(servers[k], now[|servers| + j], Regions(has)[j]))
  }

  lemma RegionsAreModes(has: set<string>)
    ensures |Regions(has)| == |AvailableModes(has)| && forall j :: 0 <= j < |Regions(has)| ==> AvailableModes(has)[j].tag == Regions(has)[j]
  {
    AvailableAre(has);
    hide AvailableModes;
  }

  lemma ServersAreManaged(servers: seq<Json>, has: set<string>)
    requires HasServer(servers, PROXY_DNS)
    ensures Managed(servers, ManagedServers(servers, has), has, ServerIndex(servers, PROXY_DNS))
  {
    hide AvailableModes, Regions, AutoSelector, Preferred, ServerIndex, WithDetour, FirstTagged, KeepsBut, IsClone, RegionalServer, Modes, RegionRules, Get,
      ManagedServers;
    var k := ServerIndex(servers, PROXY_DNS);
    var proxyDns, ms := WithDetour(servers[k].fields, AutoSelector(has)), AvailableModes(has);
    ModesAreRegions(has);
    RegionsAreModes(has);
    FirstIsTagged(servers);
    RewiredKeeps(servers[k].fields, AutoSelector(has));
    ServerPlaces(servers, has);
    forall j | 0 <= j < |ms| ensures IsClone(servers[k], RegionalServer(proxyDns, ms[j]), ms[j].tag) {
      CloneIs(servers[k].fields, proxyDns, ms[j]);
    }
  }

  lemma ServerPlaces(servers: seq<Json>, has: set<string>)
    requires HasServer(servers, PROXY_DNS)
    ensures var k, ms, now := ServerIndex(servers, PROXY_DNS), AvailableModes(has), ManagedServers(servers, has);
            var proxyDns := WithDetour(servers[k].fields, AutoSelector(has));
            && |now| == |servers| + |ms| && now[k] == Obj(proxyDns)
            && (forall i :: 0 <= i < |servers| && i != k ==> now[i] == servers[i])
            && (forall j :: 0 <= j < |ms| ==> now[|servers| + j] == RegionalServer(proxyDns, ms[j]))
  {
    hide AvailableModes, AutoSelector, ServerIndex, WithDetour, RegionalServer;
  }

  lemma FirstIsTagged(servers: seq<Json>)
    requires HasServer(servers, PROXY_DNS)
    ensures FirstTagged(servers, "proxy-dns", ServerIndex(servers, PROXY_DNS))
  {
    hide ServerIndex;
  }

  lemma RewiredKeeps(server: Object, auto: Option<string>)
    ensures KeepsBut(server, WithDetour(server, auto), {"detour"})
    ensures Get(WithDetour(server, auto), "detour") == if auto.Some? then Str(auto.value) else Null
  {}

  lemma CloneIs(server: Object, rewired: Object, m: Mode)
    requires KeepsBut(server, rewired, {"detour"})
    ensures IsClone(Obj(server), RegionalServer(rewired, m), m.tag)
  {
    assert PROXY_DNS + "-" + m.tag == "proxy-dns-" + m.tag;
    hide RegionalTag;
  }

  /** Some outbound is given by hostname and names no resolver. */
  ghost predicate Unresolved(o: Object, isAddress: string -> bool) {
    "server" in o && o["server"].Str? && o["server"].s != "" && !isAddress(o["server"].s) && Get(o, "domain_resolver") == Null
  }

  ghost predicate WantsLocal(servers: seq<Json>, os: seq<Object>, isAddress: string -> bool) {
    (exists o :: o in os && Unresolved(o, isAddress)) && forall s :: s in servers ==> !Tagged(s, "local")
  }

  lemma LocalIsWanted(servers: seq<Json>, template: seq<Json>, os: seq<Object>, isAddress: string -> bool)
    ensures WithLocal(servers, template, AnyBootstrap(os, isAddress)) ==
            if WantsLocal(template, os, isAddress) then servers + [Obj(map["type" := Str("local"), "tag" := Str("local")])] else servers
  {
    forall o ensures NeedsBootstrap(o, isAddress) <==> Unresolved(o, isAddress) {}
    assert HasServer(template, LOCAL_DNS) <==> exists s :: s in template && Tagged(s, "local") by {
      if HasServer(template, LOCAL_DNS) { assert template[ServerIndex(template, LOCAL_DNS)] in template; }
    }
    hide NeedsBootstrap, Unresolved, HasServer, Tagged;
  }

  // ---------------------------------------------------------------- DNS rules

  function ServerRule(mode: string, server: string): Json { Obj(map["clash_mode" := Str(mode), "server" := Str(server)]) }

  function ServerRules(has: set<string>): seq<Json> {
    (if "hk" in has then [ServerRule("HK", "proxy-dns-hk")] else [])
    + (if "jp" in has then [ServerRule("JP", "proxy-dns-jp")] else [])
    + (if "us" in has then [ServerRule("US", "proxy-dns-us")] else [])
    + [ServerRule("Auto", "proxy-dns")]
  }

  lemma DnsModesAreRegions(rules: Json, has: set<string>)
    ensures DnsRulesOf(rules, has) == Items(rules) + ServerRules(has)
  {
    AvailableAre(has);
    var ms := AvailableModes(has);
    hide AvailableModes;
    assert PROXY_DNS + "-" + "hk" == "proxy-dns-hk" && PROXY_DNS + "-" + "jp" == "proxy-dns-jp" && PROXY_DNS + "-" + "us" == "proxy-dns-us";
    assert DnsModeRules(ms) + [DnsModeRule(AUTO, PROXY_DNS)] == ServerRules(has);
  }

  /** The servers and rules of managed DNS in a merged document: the template's servers with proxy-dns rewired, a clone
      for each region that has outbounds, a local server if one is wanted; the template's rules, then one for each mode. */
  lemma DnsIsManaged(template: Json, os: seq<Object>, input: ClientInput, isAddress: string -> bool)
    requires MergeOf(template, os, input, isAddress).Ok? && template.Obj? && Opts(template.fields)
    ensures var t, doc, has := template.fields, MergeOf(template, os, input, isAddress).value, TagSet(os);
            && (exists now, k :: Managed(DnsServers(t), now, has, k) && DnsServers(doc) ==
                  if WantsLocal(DnsServers(t), os, isAddress) then now + [Obj(map["type" := Str("local"), "tag" := Str("local")])] else now)
            && Items(Get(Fields(Get(doc, "dns")), "rules")) == Items(Get(Fields(Get(t, "dns")), "rules")) + ServerRules(has)
  {
    hide MergeOf, MergeWith, ClientPlan, Normalized, RenderRules, Opts, HasServer, TagSet, Managed, WantsLocal, DnsServers, ServerRules, Get, Fields;
    MergeIsWiring(template, os, input, isAddress);
    OptsIsManaged(template.fields);
    NormalizedServers(template.fields);
    RulesSurvive(template.fields);
    WiredDns(Normalized(template.fields), RenderRules(ClientPlan(input).value.rules), os, input, isAddress);
    ServersAre(MergeOf(template, os, input, isAddress).value);
  }

  lemma RulesSurvive(t: Object)
    ensures Get(Fields(Get(Normalized(t), "dns")), "rules") == Get(Fields(Get(t, "dns")), "rules")
  {
    NormalizedFrame(t);
    hide Normalized;
    KeepsAt(Fields(Get(t, "dns")), Fields(Get(Normalized(t), "dns")), {"independent_cache"}, "rules");
  }

  lemma ServersAre(doc: Object)
    ensures Servers(doc) == DnsServers(doc)
  {}

  lemma WiredDns(m: Object, rendered: seq<Json>, os: seq<Object>, input: ClientInput, isAddress: string -> bool)
    requires HasServer(Servers(m), PROXY_DNS) && MergeWith(m, rendered, os, input, isAddress).Ok?
    ensures var doc, has := MergeWith(m, rendered, os, input, isAddress).value, TagSet(os);
            && (exists now, k :: Managed(Servers(m), now, has, k) && Servers(doc) ==
                  if WantsLocal(Servers(m), os, isAddress) then now + [Obj(map["type" := Str("local"), "tag" := Str("local")])] else now)
            && Items(Get(Fields(Get(doc, "dns")), "rules")) == Items(Get(Fields(Get(m, "dns")), "rules")) + ServerRules(has)
  {
    var doc, has := MergeWith(m, rendered, os, input, isAddress).value, TagSet(os);
    hide MergeWith, HasServer, TagSet, Managed, ManagedServers, WantsLocal, AnyBootstrap, WithLocal, DnsRulesOf, ServerRules, AutoSelector, Conflict,
      AvailableModes, RulesFor, Servers;
    ManagedDocument(m, rendered, os, input, isAddress);
    ServersAreManaged(Servers(m), has);
    LocalIsWanted(ManagedServers(Servers(m), has), Servers(m), os, isAddress);
    DnsModesAreRegions(Field(Get(m, "dns"), "rules"), has);
    FieldIsGet(Get(m, "dns"), "rules");
    FieldIsGet(Get(doc, "dns"), "rules");
  }

  lemma FieldIsGet(j: Json, k: string)
    ensures Field(j, k) == Get(Fields(j), k)
  {}

  /** Under managed DNS an outbound given by hostname resolves it locally; every other outbound is as generated. */
  lemma OutboundsResolve(template: Json, os: seq<Object>, input: ClientInput, isAddress: string -> bool)
    requires MergeOf(template, os, input, isAddress).Ok?
    ensures template.Obj?
    ensures var now := Get(MergeOf(template, os, input, isAddress).value, "outbounds");
            && now.Arr? && |now.items| == |os|
            && forall i :: 0 <= i < |os| ==>
                 && now.items[i].Obj? && KeepsBut(os[i], now.items[i].fields, {"domain_resolver"})
                 && Get(now.items[i].fields, "domain_resolver") ==
                    if Opts(template.fields) && Unresolved(os[i], isAddress) then Str("local") else Get(os[i], "domain_resolver")
  {
    hide MergeOf, Opts, BootstrappedAll, ObjArray, KeepsBut, Unresolved;
    RestFrame(template, os, input, isAddress);
    if Opts(template.fields) { BootstrapResolves(os, isAddress); } else { UntouchedOutbounds(os); }
  }

  lemma BootstrapResolves(os: seq<Object>, isAddress: string -> bool)
    ensures var now := ObjArray(BootstrappedAll(os, isAddress));
            && |now| == |os|
            && forall i :: 0 <= i < |os| ==>
                 && now[i].Obj? && KeepsBut(os[i], now[i].fields, {"domain_resolver"})
                 && Get(now[i].fields, "domain_resolver") == if Unresolved(os[i], isAddress) then Str("local") else Get(os[i], "domain_resolver")
  {
    forall o ensures NeedsBootstrap(o, isAddress) <==> Unresolved(o, isAddress) {}
    hide NeedsBootstrap, Unresolved;
  }

  lemma UntouchedOutbounds(os: seq<Object>)
    ensures |ObjArray(os)| == |os| && forall i :: 0 <= i < |os| ==> ObjArray(os)[i] == Obj(os[i]) && KeepsBut(os[i], os[i], {"domain_resolver"})
  {}

  // ---------------------------------------------------------------- the outcome of a merge

  ghost predicate AllFine(input: ClientInput) { forall p :: p in input.policies ==> Fine(input, p) }

  /** Some policy would become a client rule. */
  ghost predicate SomethingToInsert(input: ClientInput) {
    exists p :: p in input.policies && (p.action == "reject" || (p.action == "route" && exists x :: MatchesOne(input, p, x)))
  }

  lemma PlannedIff(input: ClientInput)
    requires ClientPlan(input).Ok?
    ensures RenderRules(ClientPlan(input).value.rules) != [] <==> SomethingToInsert(input)
  {
    var ps, all := SortBy(input.policies, PolicyLe), (k: Criteria) => true;
    PolicyLeIsOrder();
    SortMembers(input.policies, PolicyLe);
    forall p ensures ActsOn(input, p, all) <==> p in input.policies && (p.action == "reject" || (p.action == "route" && exists x :: MatchesOne(input, p, x))) {}
    var rules := PlanOf(input, ps).value.rules;
    assert FirstHit(rules, all).None? <==> rules == [];
    hide SortBy, IsOrder, ActsOn, PlanOf, MatchesOne, FirstHit, RenderRule;
    var k := FirstActing(input, ps, all);
    PlanWalk(input, ps, k, all);
    if k < |ps| { assert ps[k] in ps; }
  }

  ghost predicate Defined(t: Object, ref: string) {
    exists s :: s in Items(Get(Fields(Get(t, "route")), "rule_set")) && Tagged(s, ref)
  }

  lemma MigratedTag(a: Json, b: Json, ref: string)
    requires Migrated(a, b)
    ensures Tagged(b, ref) <==> Tagged(a, ref)
  {
    if a.Obj? && Get(a.fields, "download_detour").Str? { KeepsAt(a.fields, b.fields, {"download_detour", "http_client"}, "tag"); }
  }

  lemma DefinedIff(t: Object, ref: string)
    ensures ref in DefinedSets(Fields(Get(Normalized(t), "route"))) <==> Defined(t, ref)
  {
    var was, now := Get(Fields(Get(t, "route")), "rule_set"), Get(Fields(Get(Normalized(t), "route")), "rule_set");
    NormalizedFrame(t);
    hide Normalized;
    assert ref in DefinedSets(Fields(Get(Normalized(t), "route"))) <==> exists s :: s in Items(now) && Tagged(s, ref);
    hide DefinedSets, Tagged, Migrated;
    if was.Arr? {
      forall i | 0 <= i < |was.items| ensures Tagged(now.items[i], ref) <==> Tagged(was.items[i], ref) { MigratedTag(was.items[i], now.items[i], ref); }
      if s :| s in now.items && Tagged(s, ref) {
        var i :| 0 <= i < |now.items| && now.items[i] == s;
        assert was.items[i] in was.items;
      }
      if s :| s in was.items && Tagged(s, ref) {
        var i :| 0 <= i < |was.items| && was.items[i] == s;
        assert now.items[i] in now.items;
      }
    }
  }

  /** The policy, unless it routes to nothing, refers to a rule set the template does not define. */
  ghost predicate Dangles(t: Object, input: ClientInput, p: Policy, ref: string) {
    ref in p.criteria.ruleSet && !Defined(t, ref) && !(p.action == "route" && MatchesNone(input, p))
  }

  lemma {:induction false} FirstUndefinedIff(refs: seq<string>, defined: set<string>)
    ensures FirstUndefined(refs, defined).None? <==> forall r :: r in refs ==> r in defined
    ensures FirstUndefined(refs, defined).Some? ==>
              exists k :: 0 <= k < |refs| && refs[k] == FirstUndefined(refs, defined).value && refs[k] !in defined && forall j :: 0 <= j < k ==> refs[j] in defined
  {
    if refs != [] {
      FirstUndefinedIff(refs[1..], defined);
      assert refs == [refs[0]] + refs[1..];
      if refs[0] in defined && FirstUndefined(refs[1..], defined).Some? {
        var k :| 0 <= k < |refs[1..]| && refs[1..][k] == FirstUndefined(refs[1..], defined).value && refs[1..][k] !in defined
                 && forall j :: 0 <= j < k ==> refs[1..][j] in defined;
        assert refs[k + 1] == refs[1..][k];
        assert forall j :: 0 < j < k + 1 ==> refs[j] == refs[1..][j - 1];
      }
    }
  }

  ghost predicate AnyDangles(t: Object, input: ClientInput, p: Policy) { exists ref :: Dangles(t, input, p, ref) }

  lemma DanglesIff(t: Object, input: ClientInput, p: Policy)
    ensures var bad := FirstUndefined(p.criteria.ruleSet, DefinedSets(Fields(Get(Normalized(t), "route"))));
            && (!Skipped(input, p) && bad.Some? <==> AnyDangles(t, input, p))
            && (!Skipped(input, p) && bad.Some? ==> Dangles(t, input, p, bad.value))
  {
    var defined := DefinedSets(Fields(Get(Normalized(t), "route")));
    FirstUndefinedIff(p.criteria.ruleSet, defined);
    forall r ensures r in defined <==> Defined(t, r) { DefinedIff(t, r); }
    MatchesNoneIsZero(input, p);
    hide DefinedSets, Normalized, FirstUndefined, Defined, MatchesNone, MatchCount;
    var bad := FirstUndefined(p.criteria.ruleSet, defined);
    if bad.Some? && !Skipped(input, p) { assert Dangles(t, input, p, bad.value); }
    if ref :| Dangles(t, input, p, ref) { assert ref !in defined; }
  }

  /** The first listed policy with a dangling reference is blamed for one. */
  ghost predicate BlamesReference(t: Object, input: ClientInput, ps: seq<Policy>, k: int, e: MergeError) {
    && 0 <= k < |ps| && (forall j :: 0 <= j < k ==> !AnyDangles(t, input, ps[j]))
    && e.UndefinedRuleSet? && e.policy == ps[k].name && Dangles(t, input, ps[k], e.ref)
  }

  lemma {:induction false} RuleSetErrorIff(t: Object, input: ClientInput, ps: seq<Policy>)
    ensures var e := RuleSetError(input, ps, DefinedSets(Fields(Get(Normalized(t), "route"))));
            && (e.Some? <==> exists p :: p in ps && AnyDangles(t, input, p))
            && (e.Some? ==> exists k :: BlamesReference(t, input, ps, k, e.value))
  {
    var defined := DefinedSets(Fields(Get(Normalized(t), "route")));
    hide DefinedSets, Normalized, Skipped, FirstUndefined, AnyDangles, Dangles;
    if ps != [] {
      DanglesIff(t, input, ps[0]);
      RuleSetErrorIff(t, input, ps[1..]);
      assert ps == [ps[0]] + ps[1..];
      var e := RuleSetError(input, ps, defined);
      if AnyDangles(t, input, ps[0]) {
        assert BlamesReference(t, input, ps, 0, e.value);
      } else if e.Some? {
        var k :| BlamesReference(t, input, ps[1..], k, e.value);
        assert forall j :: 0 < j < k + 1 ==> ps[j] == ps[1..][j - 1];
        assert BlamesReference(t, input, ps, k + 1, e.value);
      }
    }
  }

  ghost predicate HasTagged(servers: seq<Json>, tag: string) { exists s :: s in servers && Tagged(s, tag) }

  /** A tag a region's server needs but the template already uses. */
  ghost function TakenTag(servers: seq<Json>, has: set<string>): Option<string> {
    if "hk" in has && HasTagged(servers, "proxy-dns-hk") then Some("proxy-dns-hk")
    else if "jp" in has && HasTagged(servers, "proxy-dns-jp") then Some("proxy-dns-jp")
    else if "us" in has && HasTagged(servers, "proxy-dns-us") then Some("proxy-dns-us")
    else None
  }

  lemma ConflictIsTaken(servers: seq<Json>, has: set<string>)
    ensures Conflict(servers, AvailableModes(has)) == TakenTag(servers, has)
  {
    AvailableAre(has);
    forall tag ensures HasServer(servers, tag) <==> HasTagged(servers, tag) {
      if HasServer(servers, tag) { assert servers[ServerIndex(servers, tag)] in servers; }
    }
    assert PROXY_DNS + "-" + "hk" == "proxy-dns-hk" && PROXY_DNS + "-" + "jp" == "proxy-dns-jp" && PROXY_DNS + "-" + "us" == "proxy-dns-us";
    var hk, jp, us := Mode("HK", "hk"), Mode("JP", "jp"), Mode("US", "us");
    var last := if "us" in has then [us] else [];
    var middle := (if "jp" in has then [jp] else []) + last;
    var all := (if "hk" in has then [hk] else []) + middle;
    assert AvailableModes(has) == all;
    hide AvailableModes, HasServer, HasTagged;
    if "us" in has { ConflictStep(servers, us, []); }
    if "jp" in has { ConflictStep(servers, jp, last); } else { assert middle == last; }
    if "hk" in has { ConflictStep(servers, hk, middle); } else { assert all == middle; }
  }

  lemma ConflictStep(servers: seq<Json>, m: Mode, rest: seq<Mode>)
    ensures Conflict(servers, [m] + rest) == if HasServer(servers, RegionalTag(m)) then Some(RegionalTag(m)) else Conflict(servers, rest)
  {
    assert ([m] + rest)[1..] == rest;
  }

  /** What a merge answers, off the template, the policies and the outbound tags: the first obstacle in this order, and a
      document exactly when there is none. */
  ghost predicate Answers(template: Json, os: seq<Object>, input: ClientInput, r: Result<Object, MergeError>) {
    if !AllFine(input) then
      r.Err? && r.error.BadPolicy?
    else if template == Null then
      r == Err(RouteNotObject)
    else if !template.Obj? then
      r == Err(NotAnObject)
    else
      var t := template.fields;
      var route := Get(t, "route");
      if !route.Obj? then r == Err(RouteNotObject)
      else if SomethingToInsert(input) && !Get(route.fields, "rules").Arr? then r == Err(RulesNotArray)
      else if exists p :: p in input.policies && AnyDangles(t, input, p) then r.Err? && exists k :: BlamesReference(t, input, input.policies, k, r.error)
      else if Opts(t) && !Get(Fields(Get(t, "dns")), "rules").Arr? && Get(Fields(Get(t, "dns")), "rules") != Null then r == Err(DnsRulesNotArray)
      else if Opts(t) && TakenTag(DnsServers(t), TagSet(os)).Some? then r == Err(ReservedTag(TakenTag(DnsServers(t), TagSet(os)).value))
      else r.Ok?
  }

  lemma WiringAnswers(t: Object, route: Object, os: seq<Object>, isAddress: string -> bool)
    ensures var r, rules := WireDns(Normalized(t), route, os, isAddress), Get(Fields(Get(t, "dns")), "rules");
            if Opts(t) && !rules.Arr? && rules != Null then r == Err(DnsRulesNotArray)
            else if Opts(t) && TakenTag(DnsServers(t), TagSet(os)).Some? then r == Err(ReservedTag(TakenTag(DnsServers(t), TagSet(os)).value))
            else r.Ok?
  {
    OptsIsManaged(t);
    NormalizedServers(t);
    NormalizedFrame(t);
    KeepsAt(Fields(Get(t, "dns")), Fields(Get(Normalized(t), "dns")), {"independent_cache"}, "rules");
    ConflictIsTaken(DnsServers(t), TagSet(os));
    hide Normalized, Opts, KeepsBut, AllMigrated, HasServer, TakenTag, AvailableModes, Conflict, TagSet, ManagedServers, DnsRulesOf, WithLocal, AnyBootstrap,
      BootstrappedAll, ManagedDoc, UnmanagedDoc;
    FieldIsGet(Get(Normalized(t), "dns"), "rules");
  }

  /** Every merge answers so. */
  lemma MergeAnswers(template: Json, os: seq<Object>, input: ClientInput, isAddress: string -> bool)
    ensures Answers(template, os, input, MergeOf(template, os, input, isAddress))
  {
    PlanIffFine(input);
    if ClientPlan(input).Ok? && template.Obj? {
      var t, rendered := template.fields, RenderRules(ClientPlan(input).value.rules);
      PlannedIff(input);
      hide ClientPlan, RenderRules;
      TemplateAnswers(t, rendered, os, input, isAddress);
    }
    hide Fine;
  }

  lemma TemplateAnswers(t: Object, rendered: seq<Json>, os: seq<Object>, input: ClientInput, isAddress: string -> bool)
    requires AllFine(input) && (rendered != [] <==> SomethingToInsert(input))
    ensures Answers(Obj(t), os, input, MergeWith(Normalized(t), rendered, os, input, isAddress))
  {
    hide Normalized, KeepsBut, AllMigrated, RuleSetError, WireDns, RouteFor, AnyDangles, BlamesReference, Opts, TakenTag, DnsServers, TagSet, AllFine, SomethingToInsert,
      DefinedSets, Get;
    var m := Normalized(t);
    NormalizedFrame(t);
    KeepsAt(Fields(Get(t, "route")), Fields(Get(m, "route")), {"rule_set"}, "rules");
    FieldIsGet(Get(m, "route"), "rules");
    RuleSetErrorIff(t, input, input.policies);
    WiringAnswers(t, RouteFor(m, rendered, os), os, isAddress);
  }
}
