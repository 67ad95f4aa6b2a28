/** The whole merged document against its template: every part of it, without naming the builders. */
module MergedDocument {

  import opened Ordering
  import opened Resources
  import opened Json
  import opened Client
  import opened Template
  import opened Rearrangement
  import opened ClientDocument

  // ---------------------------------------------------------------- kinds of template rules

  /** Sniffing or DNS interception. */
  predicate Leads(j: Json) { j.Obj? && "action" in j.fields && j.fields["action"] in {Str("sniff"), Str("hijack-dns")} }

  /** Direct traffic to private addresses or domestic sites. */
  predicate Home(j: Json) {
    && j.Obj? && "outbound" in j.fields && j.fields["outbound"] == Str("direct")
    && (("ip_is_private" in j.fields && j.fields["ip_is_private"] == Bool(true))
        || ("rule_set" in j.fields && j.fields["rule_set"].Arr? && Str("geosite-cn") in j.fields["rule_set"].items))
  }

  /** A rule of the removed Proxy mode. */
  predicate Dead(j: Json) { j.Obj? && "clash_mode" in j.fields && j.fields["clash_mode"] in {Str("Proxy"), Str("proxy")} }

  function IsHome(): Json -> bool { j => Home(j) }

  function IsElse(): Json -> bool { j => !Home(j) && !Dead(j) }

  /** The same rule, sent direct where it named the removed proxy selector. */
  ghost predicate Redirected(a: Json, b: Json) {
    if a.Obj? && "outbound" in a.fields && a.fields["outbound"] == Str("proxy")
    then b.Obj? && b.fields.Keys == a.fields.Keys && b.fields["outbound"] == Str("direct") && forall k :: k in a.fields && k != "outbound" ==> b.fields[k] == a.fields[k]
    else b == a
  }

  lemma KindsAgree(j: Json)
    ensures (IsPreprocessing(j) <==> Leads(j)) && (IsDomesticDirect(j) <==> Home(j)) && (IsOrdinary(j) <==> !Home(j) && !Dead(j))
    ensures Redirected(j, Rewrite(j))
  {}

  // ---------------------------------------------------------------- regions

  function RegionRule(mode: string, tag: string): Json { Obj(map["clash_mode" := Str(mode), "outbound" := Str(tag)]) }

  /** The region Auto stands for: hk before jp before us. */
  function Preferred(has: set<string>): Option<string> {
    if "hk" in has then Some("hk") else if "jp" in has then Some("jp") else if "us" in has then Some("us") else None
  }

  function RegionRules(has: set<string>): seq<Json> {
    (if Preferred(has).Some? then [RegionRule("Auto", Preferred(has).value)] else [])
    + (if "hk" in has then [RegionRule("HK", "hk")] else [])
    + (if "jp" in has then [RegionRule("JP", "jp")] else [])
    + (if "us" in has then [RegionRule("US", "us")] else [])
  }

  lemma AvailableAre(has: set<string>)
    ensures AvailableModes(has) == (if "hk" in has then [Mode("HK", "hk")] else [])
                                   + (if "jp" in has then [Mode("JP", "jp")] else []) + (if "us" in has then [Mode("US", "us")] else [])
  {
    var f := IsAvailable(has);
    FilterSnoc(f, MODES, 0);
    FilterSnoc(f, MODES, 1);
    FilterSnoc(f, MODES, 2);
    assert MODES[..3] == MODES && MODES[..0] == [];
    assert Filter(f, []) == [];
    hide Filter;
  }

  lemma ModesAreRegions(has: set<string>)
    ensures Modes(has) == RegionRules(has) && AutoSelector(has) == Preferred(has)
  {
    AvailableAre(has);
    var ms := AvailableModes(has);
    hide AvailableModes;
    assert Modes(has) == RegionRules(has) by {
      assert RouteModeRules(ms) == (if "hk" in has then [RegionRule("HK", "hk")] else [])
                                   + (if "jp" in has then [RegionRule("JP", "jp")] else []) + (if "us" in has then [RegionRule("US", "us")] else []);
    }
  }

  // ---------------------------------------------------------------- the route rules, part by part

  /** The template opts into managed DNS. */
  ghost predicate Opts(t: Object) { exists s :: s in DnsServers(t) && s.Obj? && "tag" in s.fields && s.fields["tag"] == Str("proxy-dns") }

  function DnsServers(t: Object): seq<Json> { Items(Get(Fields(Get(t, "dns")), "servers")) }

  function TemplateRules(t: Object): seq<Json> { Items(Get(Fields(Get(t, "route")), "rules")) }

  lemma OptsIsManaged(t: Object)
    ensures HasServer(Servers(Normalized(t)), PROXY_DNS) <==> Opts(t)
  {
    NormalizedServers(t);
    var servers := DnsServers(t);
    hide Normalized, Servers, DnsServers;
    if HasServer(servers, PROXY_DNS) { assert servers[ServerIndex(servers, PROXY_DNS)] in servers; }
    if s :| s in servers && s.Obj? && "tag" in s.fields && s.fields["tag"] == Str("proxy-dns") {
      var k :| 0 <= k < |servers| && servers[k] == s;
      assert HasTag(servers[k], PROXY_DNS);
    }
  }

  lemma NormalizedServers(t: Object)
    ensures Servers(Normalized(t)) == DnsServers(t)
  {
    hide NormalizedRoute;
  }

  lemma KindFilters(s: seq<Json>)
    ensures Filter(Domestic(), s) == Filter(IsHome(), s) && Filter(Ordinary(), s) == Filter(IsElse(), s)
  {
    forall j ensures Domestic()(j) == IsHome()(j) && Ordinary()(j) == IsElse()(j) { KindsAgree(j); }
    hide IsHome, IsElse, Domestic, Ordinary;
    FilterCongruence(Domestic(), IsHome(), s);
    FilterCongruence(Ordinary(), IsElse(), s);
  }

  lemma PrefixIsLead(items: seq<Json>)
    ensures var n := PrefixLength(items); (forall i :: 0 <= i < n ==> Leads(items[i])) && (n < |items| ==> !Leads(items[n]))
  {
    forall j ensures IsPreprocessing(j) <==> Leads(j) { KindsAgree(j); }
    hide IsPreprocessing, Leads;
  }

  /** What follows the template's own rules of each kind. */
  ghost predicate InParts(rules: seq<Json>, original: seq<Json>, n: nat, policies: seq<Json>, managed: bool, has: set<string>)
    requires n <= |original|
  {
    var home, others := Filter(IsHome(), original[n..]), Filter(IsElse(), original[n..]);
    var front := original[..n] + policies + (if managed then [Obj(map["action" := Str("resolve")])] else []) + home + RegionRules(has);
    |rules| == |front| + |others| && rules[..|front|] == front
    && forall i :: 0 <= i < |others| ==> Redirected(others[i], rules[|front| + i])
  }

  lemma Regroup<T>(a: seq<T>, b: seq<T>, r: seq<T>, c: seq<T>, d: seq<T>, e: seq<T>)
    ensures a + ((b + r) + (c + (d + e))) == (a + b + r + c + d) + e
  {}

  /** The merged list, as a front of fixed parts and the rewritten rest. */
  lemma FrontAndRest(original: seq<Json>, policyRules: seq<Json>, managed: bool, has: set<string>)
    ensures var n := PrefixLength(original); var home, others := Filter(IsHome(), original[n..]), Filter(IsElse(), original[n..]);
            var resolve: seq<Json> := if managed then [Obj(map["action" := Str("resolve")])] else [];
            MergedRules(original, policyRules, managed, has) == (original[..n] + policyRules + resolve + home + RegionRules(has)) + RewriteAll(others)
  {
    var n := PrefixLength(original);
    KindFilters(original[n..]);
    ModesAreRegions(has);
    var home, others := Filter(IsHome(), original[n..]), Filter(IsElse(), original[n..]);
    var resolve: seq<Json> := if managed then [Obj(map["action" := Str("resolve")])] else [];
    assert Inserted(policyRules, managed) == policyRules + resolve;
    hide PrefixLength, Filter, Modes, RegionRules, Rewrite, RewriteAll, IsHome, IsElse, Domestic, Ordinary, Inserted;
    Regroup(original[..n], policyRules, resolve, home, RegionRules(has), RewriteAll(others));
  }

  lemma MergedInParts(original: seq<Json>, policyRules: seq<Json>, managed: bool, has: set<string>)
    ensures InParts(MergedRules(original, policyRules, managed, has), original, PrefixLength(original), policyRules, managed, has)
  {
    var n := PrefixLength(original);
    FrontAndRest(original, policyRules, managed, has);
    hide MergedRules, PrefixLength, Filter, RegionRules, Redirected, Rewrite, IsHome, IsElse;
    var others := Filter(IsElse(), original[n..]);
    var resolve: seq<Json> := if managed then [Obj(map["action" := Str("resolve")])] else [];
    var front := original[..n] + policyRules + resolve + Filter(IsHome(), original[n..]) + RegionRules(has);
    forall i | 0 <= i < |others| ensures Redirected(others[i], (front + RewriteAll(others))[|front| + i]) { KindsAgree(others[i]); }
  }

  /** The route rules of a merged document: the template's preprocessing prefix, the policy rules, one resolve step under
      managed DNS, the domestic rules, the region modes, and the other surviving rules, each kind in template order. */
  lemma RulesInParts(template: Json, os: seq<Object>, input: ClientInput, isAddress: string -> bool)
    requires MergeOf(template, os, input, isAddress).Ok?
    ensures template.Obj? && ClientPlan(input).Ok?
    ensures var original := TemplateRules(template.fields); var n := PrefixLength(original);
            && (forall i :: 0 <= i < n ==> Leads(original[i])) && (n < |original| ==> !Leads(original[n]))
            && InParts(RouteRules(MergeOf(template, os, input, isAddress).value), original, n, PolicyPart(template, os, input, isAddress),
                       Opts(template.fields), TagSet(os))
  {
    MergedRulesOf(template, os, input, isAddress);
    NormalizedKeepsRules(template.fields);
    OptsIsManaged(template.fields);
    var original, m := TemplateRules(template.fields), Normalized(template.fields);
    assert Items(Field(Get(m, "route"), "rules")) == original && Items(Field(Get(template.fields, "route"), "rules")) == original;
    hide MergeOf, ClientPlan, Normalized, Leads, InParts, MergedRules, PrefixLength, Opts, HasServer, Servers, TagSet, RouteRules;
    PrefixIsLead(original);
    MergedInParts(original, RenderRules(ClientPlan(input).value.rules), Opts(template.fields), TagSet(os));
    PartIsRendered(template, os, input, isAddress);
  }

  lemma InsertedSlice(original: seq<Json>, policyRules: seq<Json>, managed: bool, has: set<string>)
    ensures var n := PrefixLength(original);
            n + |policyRules| <= |MergedRules(original, policyRules, managed, has)|
            && MergedRules(original, policyRules, managed, has)[n..n + |policyRules|] == policyRules
  {
    var n := PrefixLength(original);
    hide PrefixLength, Filter, Modes, RewriteAll;
    assert n + |policyRules| <= |MergedRules(original, policyRules, managed, has)|;
    hide MergedRules;
    forall k | 0 <= k < |policyRules| ensures MergedRules(original, policyRules, managed, has)[n..n + |policyRules|][k] == policyRules[k] {
      InsertedAt(original, policyRules, managed, has, k);
    }
  }

  lemma PartIsRendered(template: Json, os: seq<Object>, input: ClientInput, isAddress: string -> bool)
    requires MergeOf(template, os, input, isAddress).Ok?
    ensures ClientPlan(input).Ok? && PolicyPart(template, os, input, isAddress) == RenderRules(ClientPlan(input).value.rules)
  {
    hide MergeOf, ClientPlan, Normalized, MergedRules, PrefixLength, HasServer, Servers, TagSet, Field, Get, Items, RouteRules;
    MergedRulesOf(template, os, input, isAddress);
    NormalizedKeepsRules(template.fields);
    PlanFits(template, os, input, isAddress);
    var m, rendered := Normalized(template.fields), RenderRules(ClientPlan(input).value.rules);
    InsertedSlice(Items(Field(Get(m, "route"), "rules")), rendered, HasServer(Servers(m), PROXY_DNS), TagSet(os));
  }

  // ---------------------------------------------------------------- everything else in the document

  /** b keeps what a has under all other keys. */
  ghost predicate KeepsBut(a: Object, b: Object, keys: set<string>) { forall k :: k !in keys ==> Get(b, k) == Get(a, k) }

  /** A rule set whose deprecated download detour became an inline HTTP client, unless it has one already. */
  ghost predicate Migrated(a: Json, b: Json) {
    if a.Obj? && Get(a.fields, "download_detour").Str?
    then && b.Obj? && "download_detour" !in b.fields && KeepsBut(a.fields, b.fields, {"download_detour", "http_client"})
         && Get(b.fields, "http_client") == (if "http_client" in a.fields then a.fields["http_client"]
                                             else Obj(map["detour" := a.fields["download_detour"]]))
    else b == a
  }

  lemma SetMigrates(j: Json)
    ensures Migrated(j, NormalizedSet(j))
  {}

  ghost predicate AllMigrated(a: Json, b: Json) {
    if a.Arr? then b.Arr? && |b.items| == |a.items| && forall i :: 0 <= i < |a.items| ==> Migrated(a.items[i], b.items[i]) else b == a
  }

  /** What normalization leaves as it is, and what it migrates. */
  lemma NormalizedFrame(t: Object)
    ensures KeepsBut(t, Normalized(t), {"dns", "route"})
    ensures KeepsBut(Fields(Get(t, "dns")), Fields(Get(Normalized(t), "dns")), {"independent_cache"})
    ensures "independent_cache" !in Fields(Get(Normalized(t), "dns")) && (Get(Normalized(t), "dns").Obj? <==> Get(t, "dns").Obj?)
    ensures Get(Normalized(t), "route").Obj? <==> Get(t, "route").Obj?
    ensures KeepsBut(Fields(Get(t, "route")), Fields(Get(Normalized(t), "route")), {"rule_set"})
    ensures AllMigrated(Get(Fields(Get(t, "route")), "rule_set"), Get(Fields(Get(Normalized(t), "route")), "rule_set"))
  {
    forall j ensures Migrated(j, NormalizedSet(j)) { SetMigrates(j); }
    hide NormalizedSet, Migrated;
  }

  /** The sections of a wired document, over the normalized template. */
  lemma WiredFrame(m: Object, policyRules: seq<Json>, os: seq<Object>, input: ClientInput, isAddress: string -> bool)
    requires MergeWith(m, policyRules, os, input, isAddress).Ok?
    ensures var doc := MergeWith(m, policyRules, os, input, isAddress).value; var managed := HasServer(Servers(m), PROXY_DNS);
            && KeepsBut(m, doc, {"route", "dns", "experimental", "outbounds"})
            && KeepsBut(Fields(Get(m, "route")), Fields(Get(doc, "route")), {"rules", "final", "default_domain_resolver"})
            && Get(Fields(Get(doc, "route")), "final") == (match AutoSelector(TagSet(os)) case Some(tag) => Str(tag) case None => Get(Fields(Get(m, "route")), "final"))
            && Get(Fields(Get(doc, "route")), "default_domain_resolver") == (if managed then Str("proxy-dns") else Get(Fields(Get(m, "route")), "default_domain_resolver"))
            && (if managed then KeepsBut(Fields(Get(m, "dns")), Fields(Get(doc, "dns")), {"servers", "rules", "final"}) && Get(Fields(Get(doc, "dns")), "final") == Str("proxy-dns")
                else Get(doc, "dns") == Get(m, "dns"))
            && Get(doc, "outbounds") == Arr(ObjArray(if managed then BootstrappedAll(os, isAddress) else os))
  {
    hide TemplateError, RulesFor, AutoSelector, HasServer, BootstrappedAll, PlanDns, WithLocal, AnyBootstrap;
  }

  lemma DefaultMode(m: Object, policyRules: seq<Json>, os: seq<Object>, input: ClientInput, isAddress: string -> bool)
    requires MergeWith(m, policyRules, os, input, isAddress).Ok?
    ensures var was, now := Fields(Get(m, "experimental")), Fields(Get(MergeWith(m, policyRules, os, input, isAddress).value, "experimental"));
            && KeepsBut(was, now, {"clash_api"}) && KeepsBut(Fields(Get(was, "clash_api")), Fields(Get(now, "clash_api")), {"default_mode"})
            && Get(Fields(Get(now, "clash_api")), "default_mode") == Str("Auto")
  {
    hide TemplateError, RouteFor, HasServer, BootstrappedAll, PlanDns, WithLocal, AnyBootstrap, ManagedDns;
  }

  lemma KeepsThrough(a: Object, b: Object, c: Object, s: set<string>, t: set<string>)
    requires KeepsBut(a, b, s) && KeepsBut(b, c, t)
    ensures KeepsBut(a, c, s + t)
  {}

  lemma KeepsAt(a: Object, b: Object, s: set<string>, k: string)
    requires KeepsBut(a, b, s) && k !in s
    ensures Get(b, k) == Get(a, k)
  {}

  /** A merge is the wiring of the normalized template with the rendered rules. */
  lemma MergeIsWiring(template: Json, os: seq<Object>, input: ClientInput, isAddress: string -> bool)
    requires MergeOf(template, os, input, isAddress).Ok?
    ensures template.Obj? && ClientPlan(input).Ok?
    ensures MergeOf(template, os, input, isAddress) == MergeWith(Normalized(template.fields), RenderRules(ClientPlan(input).value.rules), os, input, isAddress)
  {
    hide ClientPlan, Normalized, RenderRules, MergeWith;
  }

  /** The route section of a merged document, besides its rules: migrated rule sets, the final selector, and the default
      resolver under managed DNS. */
  lemma RouteFrame(template: Json, os: seq<Object>, input: ClientInput, isAddress: string -> bool)
    requires MergeOf(template, os, input, isAddress).Ok?
    ensures template.Obj?
    ensures var t, doc := template.fields, MergeOf(template, os, input, isAddress).value;
            var route, route' := Fields(Get(t, "route")), Fields(Get(doc, "route"));
            && KeepsBut(route, route', {"rule_set", "rules", "final", "default_domain_resolver"})
            && AllMigrated(Get(route, "rule_set"), Get(route', "rule_set"))
            && Get(route', "final") == (match Preferred(TagSet(os)) case Some(tag) => Str(tag) case None => Get(route, "final"))
            && Get(route', "default_domain_resolver") == (if Opts(t) then Str("proxy-dns") else Get(route, "default_domain_resolver"))
  {
    hide MergeOf, MergeWith, ClientPlan, Normalized, KeepsBut, AllMigrated, RenderRules, Opts, HasServer, Servers, AutoSelector, Preferred, TagSet, Get, Fields;
    MergeIsWiring(template, os, input, isAddress);
    var t, doc := template.fields, MergeOf(template, os, input, isAddress).value;
    var m := Normalized(t);
    OptsIsManaged(t);
    NormalizedFrame(t);
    ModesAreRegions(TagSet(os));
    WiredFrame(m, RenderRules(ClientPlan(input).value.rules), os, input, isAddress);
    var a, b, c := Fields(Get(t, "route")), Fields(Get(m, "route")), Fields(Get(doc, "route"));
    KeepsThrough(a, b, c, {"rule_set"}, {"rules", "final", "default_domain_resolver"});
    assert {"rule_set"} + {"rules", "final", "default_domain_resolver"} == {"rule_set", "rules", "final", "default_domain_resolver"};
    KeepsAt(a, b, {"rule_set"}, "final");
    KeepsAt(a, b, {"rule_set"}, "default_domain_resolver");
    KeepsAt(b, c, {"rules", "final", "default_domain_resolver"}, "rule_set");
  }

  /** The DNS section of a merged document, besides servers and rules. */
  lemma DnsFrame(template: Json, os: seq<Object>, input: ClientInput, isAddress: string -> bool)
    requires MergeOf(template, os, input, isAddress).Ok?
    ensures template.Obj?
    ensures var t, doc := template.fields, MergeOf(template, os, input, isAddress).value;
            var dns, dns' := Fields(Get(t, "dns")), Fields(Get(doc, "dns"));
            && "independent_cache" !in dns'
            && (if Opts(t) then KeepsBut(dns, dns', {"independent_cache", "servers", "rules", "final"}) && Get(dns', "final") == Str("proxy-dns")
                else KeepsBut(dns, dns', {"independent_cache"}))
  {
    hide MergeOf, MergeWith, ClientPlan, Normalized, KeepsBut, AllMigrated, RenderRules, Opts, HasServer, Servers, AutoSelector, TagSet, Get, Fields;
    MergeIsWiring(template, os, input, isAddress);
    var t, doc, rendered := template.fields, MergeOf(template, os, input, isAddress).value, RenderRules(ClientPlan(input).value.rules);
    var m := Normalized(t);
    OptsIsManaged(t);
    NormalizedFrame(t);
    WiredFrame(m, rendered, os, input, isAddress);
    ManagedCache(m, rendered, os, input, isAddress);
    if Opts(t) {
      KeepsThrough(Fields(Get(t, "dns")), Fields(Get(m, "dns")), Fields(Get(doc, "dns")), {"independent_cache"}, {"servers", "rules", "final"});
      assert {"independent_cache"} + {"servers", "rules", "final"} == {"independent_cache", "servers", "rules", "final"};
    }
  }

  /** The rest of a merged document: the generated outbounds, Auto as the default mode, and everything else as in the template. */
  lemma RestFrame(template: Json, os: seq<Object>, input: ClientInput, isAddress: string -> bool)
    requires MergeOf(template, os, input, isAddress).Ok?
    ensures template.Obj?
    ensures var t, doc := template.fields, MergeOf(template, os, input, isAddress).value;
            var lab, lab' := Fields(Get(t, "experimental")), Fields(Get(doc, "experimental"));
            && KeepsBut(t, doc, {"dns", "route", "experimental", "outbounds"})
            && Get(doc, "outbounds") == Arr(ObjArray(if Opts(t) then BootstrappedAll(os, isAddress) else os))
            && KeepsBut(lab, lab', {"clash_api"}) && KeepsBut(Fields(Get(lab, "clash_api")), Fields(Get(lab', "clash_api")), {"default_mode"})
            && Get(Fields(Get(lab', "clash_api")), "default_mode") == Str("Auto")
  {
    hide MergeOf, MergeWith, ClientPlan, Normalized, KeepsBut, AllMigrated, RenderRules, Opts, HasServer, Servers, AutoSelector, TagSet, Get, Fields, BootstrappedAll, ObjArray;
    MergeIsWiring(template, os, input, isAddress);
    var t, doc, rendered := template.fields, MergeOf(template, os, input, isAddress).value, RenderRules(ClientPlan(input).value.rules);
    var m := Normalized(t);
    OptsIsManaged(t);
    NormalizedFrame(t);
    WiredFrame(m, rendered, os, input, isAddress);
    DefaultMode(m, rendered, os, input, isAddress);
    KeepsThrough(t, m, doc, {"dns", "route"}, {"route", "dns", "experimental", "outbounds"});
    assert {"dns", "route"} + {"route", "dns", "experimental", "outbounds"} == {"dns", "route", "experimental", "outbounds"};
    KeepsAt(t, m, {"dns", "route"}, "experimental");
  }

  lemma ManagedCache(m: Object, policyRules: seq<Json>, os: seq<Object>, input: ClientInput, isAddress: string -> bool)
    requires MergeWith(m, policyRules, os, input, isAddress).Ok? && "independent_cache" !in Fields(Get(m, "dns"))
    ensures "independent_cache" !in Fields(Get(MergeWith(m, policyRules, os, input, isAddress).value, "dns"))
  {
    hide TemplateError, RouteFor, HasServer, BootstrappedAll, PlanDns, WithLocal, AnyBootstrap;
  }
}
