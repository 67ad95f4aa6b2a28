/** Merging generated outbounds and rules into a client template. */
module Template {

  import opened Ordering
  import opened Resources
  import opened Json
  import opened Client

  const PROXY_DNS := "proxy-dns"
  const LOCAL_DNS := "local"
  const AUTO := "Auto"

  datatype Mode = Mode(name: string, tag: string)

  /** The regional modes, in order of preference. */
  const MODES := [Mode("HK", "hk"), Mode("JP", "jp"), Mode("US", "us")]

  datatype MergeError =
    | BadPolicy(error: PolicyError) | NotAnObject | RouteNotObject | RulesNotArray
    | UndefinedRuleSet(policy: string, ref: string) | DnsRulesNotArray | ReservedTag(tag: string)

  // ---------------------------------------------------------------- route rules

  function Field(item: Json, k: string): Json { Get(Fields(item), k) }

  predicate IsPreprocessing(item: Json) {
    item.Obj? && (Field(item, "action") == Str("sniff") || Field(item, "action") == Str("hijack-dns"))
  }

  predicate IsDomesticDirect(item: Json) {
    && item.Obj? && Field(item, "outbound") == Str("direct")
    && (Field(item, "ip_is_private") == Bool(true) || Str("geosite-cn") in Items(Field(item, "rule_set")))
  }

  predicate IsLegacyProxyMode(item: Json) {
    item.Obj? && (Field(item, "clash_mode") == Str("Proxy") || Field(item, "clash_mode") == Str("proxy"))
  }

  /** Ordinary template rules: neither domestic nor of the removed Proxy mode. */
  predicate IsOrdinary(item: Json) { !IsDomesticDirect(item) && !IsLegacyProxyMode(item) }

  /** Never leaves a reference to the removed proxy selector. */
  function Rewrite(item: Json): Json {
    if item.Obj? && Field(item, "outbound") == Str("proxy") then Obj(item.fields["outbound" := Str("direct")]) else item
  }

  function RewriteAll(items: seq<Json>): (r: seq<Json>)
    ensures |r| == |items| && forall i :: 0 <= i < |items| ==> r[i] == Rewrite(items[i])
  {
    seq(|items|, i requires 0 <= i < |items| => Rewrite(items[i]))
  }

  function Domestic(): Json -> bool { item => IsDomesticDirect(item) }

  function Ordinary(): Json -> bool { item => IsOrdinary(item) }

  /** How many leading rules are sniffing or DNS interception. */
  function PrefixLength(items: seq<Json>): (n: nat)
    ensures n <= |items| && (forall i :: 0 <= i < n ==> IsPreprocessing(items[i])) && (n < |items| ==> !IsPreprocessing(items[n]))
  {
    if items == [] || !IsPreprocessing(items[0]) then 0 else 1 + PrefixLength(items[1..])
  }

  lemma {:induction false} PrefixLengthUnique(items: seq<Json>, n: nat)
    requires n <= |items| && (forall i :: 0 <= i < n ==> IsPreprocessing(items[i])) && (n < |items| ==> !IsPreprocessing(items[n]))
    ensures PrefixLength(items) == n
  {
    if n > 0 { PrefixLengthUnique(items[1..], n - 1); }
  }

  function IsAvailable(has: set<string>): Mode -> bool { (m: Mode) => m.tag in has }

  function AvailableModes(has: set<string>): seq<Mode> { Filter(IsAvailable(has), MODES) }

  /** The selector Auto uses: the first available region, or none. */
  function AutoSelector(has: set<string>): Option<string> {
    var ms := AvailableModes(has);
    if ms == [] then None else Some(ms[0].tag)
  }

  function ModeRule(name: string, outbound: string): Json {
    Obj(map["clash_mode" := Str(name), "outbound" := Str(outbound)])
  }

  function RouteModeRules(ms: seq<Mode>): (r: seq<Json>)
    ensures |r| == |ms| && forall i :: 0 <= i < |ms| ==> r[i] == ModeRule(ms[i].name, ms[i].tag)
  {
    seq(|ms|, i requires 0 <= i < |ms| => ModeRule(ms[i].name, ms[i].tag))
  }

  function AutoRules(has: set<string>): seq<Json> {
    match AutoSelector(has)
    case Some(tag) => [ModeRule(AUTO, tag)]
    case None => []
  }

  const RESOLVE := Obj(map["action" := Str("resolve")])

  /** What is inserted between the preprocessing prefix and the domestic rules. */
  function Inserted(policyRules: seq<Json>, managed: bool): seq<Json> {
    if managed then policyRules + [RESOLVE] else policyRules
  }

  function Modes(has: set<string>): seq<Json> { AutoRules(has) + RouteModeRules(AvailableModes(has)) }

  /** The merged rule list: preprocessing, policies, resolve, domestic, modes, and the rest in template order. */
  function MergedRules(original: seq<Json>, policyRules: seq<Json>, managed: bool, has: set<string>): seq<Json> {
    var n := PrefixLength(original);
    var tail := original[n..];
    original[..n] + (Inserted(policyRules, managed) + (Filter(Domestic(), tail) + (Modes(has) + RewriteAll(Filter(Ordinary(), tail)))))
  }

  lemma Assoc5<T>(a: seq<T>, b: seq<T>, c: seq<T>, d: seq<T>, e: seq<T>)
    ensures a + b + c + d + e == a + (b + (c + (d + e)))
  {
    assert a + b + c + d + e == (a + b + c) + (d + e);
    assert (a + b + c) + (d + e) == (a + b) + (c + (d + e));
    assert (a + b) + (c + (d + e)) == a + (b + (c + (d + e)));
  }

  method FindPrefix(original: seq<Json>) returns (insert: nat)
    ensures insert == PrefixLength(original)
  {
    insert := 0;
    while insert < |original| && IsPreprocessing(original[insert])
      invariant insert <= |original|
      invariant forall i :: 0 <= i < insert ==> IsPreprocessing(original[i])
    {
      insert := insert + 1;
    }
    PrefixLengthUnique(original, insert);
  }

  method ModeRules(has: set<string>) returns (rules: seq<Json>, auto: Option<string>)
    ensures rules == Modes(has) && auto == AutoSelector(has)
  {
    auto := None;
    var regional: seq<Json> := [];
    for i := 0 to |MODES|
      invariant regional == RouteModeRules(Filter(IsAvailable(has), MODES[..i]))
      invariant auto == var ms := Filter(IsAvailable(has), MODES[..i]); if ms == [] then None else Some(ms[0].tag)
    {
      FilterSnoc(IsAvailable(has), MODES, i);
      if MODES[i].tag in has {
        if auto.None? {
          auto := Some(MODES[i].tag);
        }
        regional := regional + [ModeRule(MODES[i].name, MODES[i].tag)];
      }
    }
    assert MODES[..|MODES|] == MODES;
    rules := (if auto.Some? then [ModeRule(AUTO, auto.value)] else []) + regional;
  }

  method DomesticRules(tail: seq<Json>) returns (rules: seq<Json>)
    ensures rules == Filter(Domestic(), tail)
  {
    rules := [];
    for i := 0 to |tail|
      invariant rules == Filter(Domestic(), tail[..i])
    {
      FilterSnoc(Domestic(), tail, i);
      if IsDomesticDirect(tail[i]) {
        rules := rules + [tail[i]];
      }
    }
    assert tail[..|tail|] == tail;
  }

  method MergeRules(original: seq<Json>, policyRules: seq<Json>, managed: bool, has: set<string>)
    returns (rules: seq<Json>, auto: Option<string>)
    ensures rules == MergedRules(original, policyRules, managed, has)
    ensures auto == AutoSelector(has)
  {
    var insert := FindPrefix(original);
    var tail := original[insert..];
    var inserted := policyRules;
    if managed {
      inserted := inserted + [RESOLVE];
    }
    var domestic := DomesticRules(tail);
    var modes;
    modes, auto := ModeRules(has);
    var rest := RestRules(tail);
    rules := original[..insert] + inserted + domestic + modes + rest;
    Assoc5(original[..insert], inserted, domestic, modes, rest);
  }

  method RestRules(tail: seq<Json>) returns (rest: seq<Json>)
    ensures rest == RewriteAll(Filter(Ordinary(), tail))
  {
    rest := [];
    for i := 0 to |tail|
      invariant rest == RewriteAll(Filter(Ordinary(), tail[..i]))
    {
      FilterSnoc(Ordinary(), tail, i);
      if !IsDomesticDirect(tail[i]) && !IsLegacyProxyMode(tail[i]) {
        rest := rest + [Rewrite(tail[i])];
      }
    }
    assert tail[..|tail|] == tail;
  }

  // ---------------------------------------------------------------- DNS servers and rules

  function Servers(config: Object): seq<Json> { Items(Get(Fields(Get(config, "dns")), "servers")) }

  /** The index of the first server with a tag, or the number of servers. */
  function ServerIndex(servers: seq<Json>, tag: string): (i: nat)
    ensures i <= |servers| && (i < |servers| ==> HasTag(servers[i], tag))
    ensures forall j :: 0 <= j < i ==> !HasTag(servers[j], tag)
  {
    if servers == [] || HasTag(servers[0], tag) then 0 else 1 + ServerIndex(servers[1..], tag)
  }

  predicate HasServer(servers: seq<Json>, tag: string) { ServerIndex(servers, tag) < |servers| }

  function WithDetour(server: Object, auto: Option<string>): Object {
    match auto
    case Some(tag) => server["detour" := Str(tag)]
    case None => server - {"detour"}
  }

  function RegionalTag(m: Mode): string { PROXY_DNS + "-" + m.tag }

  function RegionalServer(proxyDns: Object, m: Mode): Json {
    Obj(proxyDns["tag" := Str(RegionalTag(m))]["detour" := Str(m.tag)])
  }

  function RegionalServers(proxyDns: Object, ms: seq<Mode>): (r: seq<Json>)
    ensures |r| == |ms| && forall i :: 0 <= i < |ms| ==> r[i] == RegionalServer(proxyDns, ms[i])
  {
    seq(|ms|, i requires 0 <= i < |ms| => RegionalServer(proxyDns, ms[i]))
  }

  function DnsModeRule(name: string, server: string): Json {
    Obj(map["clash_mode" := Str(name), "server" := Str(server)])
  }

  function DnsModeRules(ms: seq<Mode>): (r: seq<Json>)
    ensures |r| == |ms| && forall i :: 0 <= i < |ms| ==> r[i] == DnsModeRule(ms[i].name, RegionalTag(ms[i]))
  {
    seq(|ms|, i requires 0 <= i < |ms| => DnsModeRule(ms[i].name, RegionalTag(ms[i])))
  }

  const LOCAL_SERVER := Obj(map["type" := Str("local"), "tag" := Str(LOCAL_DNS)])

  /** The first available regional tag the template already uses, if any. */
  function Conflict(servers: seq<Json>, ms: seq<Mode>): Option<string> {
    if ms == [] then None
    else if HasServer(servers, RegionalTag(ms[0])) then Some(RegionalTag(ms[0]))
    else Conflict(servers, ms[1..])
  }

  datatype DnsPlan = DnsPlan(servers: seq<Json>, rules: seq<Json>)

  /** The template's servers with proxy-dns pointed at Auto's selector, then one server per available region. */
  function ManagedServers(servers: seq<Json>, has: set<string>): seq<Json>
    requires HasServer(servers, PROXY_DNS)
  {
    var k := ServerIndex(servers, PROXY_DNS);
    var proxyDns := WithDetour(servers[k].fields, AutoSelector(has));
    servers[k := Obj(proxyDns)] + RegionalServers(proxyDns, AvailableModes(has))
  }

  /** A local server is added when a bootstrap resolver is needed and the template has none. */
  function WithLocal(servers: seq<Json>, template: seq<Json>, needsLocal: bool): seq<Json> {
    if needsLocal && !HasServer(template, LOCAL_DNS) then servers + [LOCAL_SERVER] else servers
  }

  function DnsRulesOf(templateRules: Json, has: set<string>): seq<Json> {
    Items(templateRules) + DnsModeRules(AvailableModes(has)) + [DnsModeRule(AUTO, PROXY_DNS)]
  }

  function PlanDns(servers: seq<Json>, rules: Json, has: set<string>): Result<DnsPlan, MergeError>
    requires HasServer(servers, PROXY_DNS)
  {
    if !rules.Arr? && !rules.Null? then Err(DnsRulesNotArray)
    else
      match Conflict(servers, AvailableModes(has))
      case Some(tag) => Err(ReservedTag(tag))
      case None => Ok(DnsPlan(ManagedServers(servers, has), DnsRulesOf(rules, has)))
  }

  lemma ConflictSnoc(servers: seq<Json>, ms: seq<Mode>, m: Mode)
    ensures Conflict(servers, ms + [m]) ==
            if Conflict(servers, ms).Some? then Conflict(servers, ms)
            else if HasServer(servers, RegionalTag(m)) then Some(RegionalTag(m)) else None
  {
    if ms != [] {
      ConflictSnoc(servers, ms[1..], m);
      assert (ms + [m])[1..] == ms[1..] + [m];
    }
  }

  lemma {:induction false} ConflictStays(servers: seq<Json>, ms: seq<Mode>, rest: seq<Mode>)
    requires Conflict(servers, ms).Some?
    ensures Conflict(servers, ms + rest) == Conflict(servers, ms)
  {
    if !HasServer(servers, RegionalTag(ms[0])) {
      ConflictStays(servers, ms[1..], rest);
    }
    assert (ms + rest)[1..] == ms[1..] + rest;
  }

  lemma ConflictFound(servers: seq<Json>, has: set<string>, i: nat)
    requires i < |MODES| && MODES[i].tag in has && HasServer(servers, RegionalTag(MODES[i]))
    requires Conflict(servers, Filter(IsAvailable(has), MODES[..i])).None?
    ensures Conflict(servers, AvailableModes(has)) == Some(RegionalTag(MODES[i]))
  {
    var f := IsAvailable(has);
    FilterSnoc(f, MODES, i);
    ConflictSnoc(servers, Filter(f, MODES[..i]), MODES[i]);
    assert MODES == MODES[..i + 1] + MODES[i + 1..];
    FilterConcat(f, MODES[..i + 1], MODES[i + 1..]);
    ConflictStays(servers, Filter(f, MODES[..i + 1]), Filter(f, MODES[i + 1..]));
  }

  lemma NoConflictYet(servers: seq<Json>, has: set<string>, i: nat)
    requires i < |MODES| && Conflict(servers, Filter(IsAvailable(has), MODES[..i])).None?
    requires MODES[i].tag in has ==> !HasServer(servers, RegionalTag(MODES[i]))
    ensures Conflict(servers, Filter(IsAvailable(has), MODES[..i + 1])).None?
  {
    var sofar := Filter(IsAvailable(has), MODES[..i]);
    FilterSnoc(IsAvailable(has), MODES, i);
    ConflictSnoc(servers, sofar, MODES[i]);
    assert sofar + [] == sofar;
  }

  lemma RegionalStep(proxyDns: Object, has: set<string>, i: nat)
    requires i < |MODES|
    ensures var f, m := IsAvailable(has), MODES[i];
            && RegionalServers(proxyDns, Filter(f, MODES[..i + 1])) == RegionalServers(proxyDns, Filter(f, MODES[..i])) + (if m.tag in has then [RegionalServer(proxyDns, m)] else [])
            && DnsModeRules(Filter(f, MODES[..i + 1])) == DnsModeRules(Filter(f, MODES[..i])) + (if m.tag in has then [DnsModeRule(m.name, RegionalTag(m))] else [])
  {
    FilterSnoc(IsAvailable(has), MODES, i);
  }

  /** Gives every available region its own transport, and points the modes at them. */
  method ConfigureServers(servers0: seq<Json>, rules0: Json, has: set<string>, auto: Option<string>)
    returns (r: Result<DnsPlan, MergeError>)
    requires HasServer(servers0, PROXY_DNS) && auto == AutoSelector(has)
    ensures r == PlanDns(servers0, rules0, has)
  {
    if !rules0.Arr? && !rules0.Null? {
      return Err(DnsRulesNotArray);
    }
    var k := ServerIndex(servers0, PROXY_DNS);
    var proxyDns := WithDetour(servers0[k].fields, auto);
    var regional: seq<Json>, modes: seq<Json> := [], [];
    for i := 0 to |MODES|
      invariant Conflict(servers0, Filter(IsAvailable(has), MODES[..i])).None?
      invariant regional == RegionalServers(proxyDns, Filter(IsAvailable(has), MODES[..i]))
      invariant modes == DnsModeRules(Filter(IsAvailable(has), MODES[..i]))
    {
      var m := MODES[i];
      RegionalStep(proxyDns, has, i);
      if m.tag in has {
        if HasServer(servers0, RegionalTag(m)) {
          ConflictFound(servers0, has, i);
          return Err(ReservedTag(RegionalTag(m)));
        }
        regional := regional + [RegionalServer(proxyDns, m)];
        modes := modes + [DnsModeRule(m.name, RegionalTag(m))];
      }
      NoConflictYet(servers0, has, i);
    }
    assert MODES[..|MODES|] == MODES;
    r := Ok(DnsPlan(servers0[k := Obj(proxyDns)] + regional, Items(rules0) + modes + [DnsModeRule(AUTO, PROXY_DNS)]));
  }

  // ---------------------------------------------------------------- bootstrap resolution of proxy endpoints

  /** A generated outbound as the caller holds it. */
  class OutboundMap {
    var fields: Object
    constructor (fields: Object)
      ensures this.fields == fields
    {
      this.fields := fields;
    }
  }

  ghost function Contents(os: seq<OutboundMap>): (r: seq<Object>)
    reads os
    ensures |r| == |os| && forall i :: 0 <= i < |os| ==> r[i] == os[i].fields
  {
    seq(|os|, i requires 0 <= i < |os| reads os => os[i].fields)
  }

  /** Whether an endpoint is a hostname without a resolver of its own; `isAddress` is netip.ParseAddr succeeding. */
  predicate NeedsBootstrap(o: Object, isAddress: string -> bool) {
    var server := Get(o, "server");
    server.Str? && server.s != "" && Get(o, "domain_resolver").Null? && !isAddress(server.s)
  }

  function Bootstrapped(o: Object, isAddress: string -> bool): Object {
    if NeedsBootstrap(o, isAddress) then o["domain_resolver" := Str(LOCAL_DNS)] else o
  }

  function BootstrappedAll(os: seq<Object>, isAddress: string -> bool): (r: seq<Object>)
    ensures |r| == |os| && forall i :: 0 <= i < |os| ==> r[i] == Bootstrapped(os[i], isAddress)
  {
    seq(|os|, i requires 0 <= i < |os| => Bootstrapped(os[i], isAddress))
  }

  predicate AnyBootstrap(os: seq<Object>, isAddress: string -> bool) {
    exists o :: o in os && NeedsBootstrap(o, isAddress)
  }

  /** Clones what it changes: the caller's maps keep their contents, and untouched entries are passed on as they are. */
  method BootstrapOutbounds(os: seq<OutboundMap>, isAddress: string -> bool) returns (result: seq<OutboundMap>, needsLocal: bool)
    ensures Contents(result) == BootstrappedAll(old(Contents(os)), isAddress)
    ensures Contents(os) == old(Contents(os))
    ensures |result| == |os| && forall i :: 0 <= i < |os| ==> if NeedsBootstrap(os[i].fields, isAddress) then fresh(result[i]) else result[i] == os[i]
    ensures needsLocal == AnyBootstrap(old(Contents(os)), isAddress)
  {
    result, needsLocal := [], false;
    for i := 0 to |os|
      invariant |result| == i
      invariant forall j :: 0 <= j < i ==> result[j].fields == Bootstrapped(os[j].fields, isAddress)
      invariant forall j :: 0 <= j < i ==> if NeedsBootstrap(os[j].fields, isAddress) then fresh(result[j]) else result[j] == os[j]
      invariant needsLocal == exists j :: 0 <= j < i && NeedsBootstrap(os[j].fields, isAddress)
    {
      var fields := os[i].fields;
      if NeedsBootstrap(fields, isAddress) {
        var clone := new OutboundMap(fields["domain_resolver" := Str(LOCAL_DNS)]);
        result := result + [clone];
        needsLocal := true;
      } else {
        result := result + [os[i]];
      }
    }
    ghost var all := Contents(os);
    assert forall j :: 0 <= j < |os| ==> all[j] in all;
  }

  // ---------------------------------------------------------------- deprecated template fields

  /** Moves a rule set's download_detour into an inline HTTP client, unless it has one already. */
  function NormalizedSet(j: Json): Json {
    if j.Obj? && Field(j, "download_detour").Str? then
      var set' := j.fields - {"download_detour"};
      Obj(if "http_client" in j.fields then set' else set'["http_client" := Obj(map["detour" := Field(j, "download_detour")])])
    else
      j
  }

  function NormalizedSets(items: seq<Json>): (r: seq<Json>)
    ensures |r| == |items| && forall i :: 0 <= i < |items| ==> r[i] == NormalizedSet(items[i])
  {
    seq(|items|, i requires 0 <= i < |items| => NormalizedSet(items[i]))
  }

  function NormalizedRoute(route: Json): Json {
    if route.Obj? && Field(route, "rule_set").Arr? then
      Obj(route.fields["rule_set" := Arr(NormalizedSets(Field(route, "rule_set").items))])
    else
      route
  }

  function NormalizedDns(dns: Json): Json { if dns.Obj? then Obj(dns.fields - {"independent_cache"}) else dns }

  function Update(m: Object, k: string, v: Json): Object { if k in m then m[k := v] else m }

  function Normalized(m: Object): Object {
    Update(Update(m, "dns", NormalizedDns(Get(m, "dns"))), "route", NormalizedRoute(Get(m, "route")))
  }

  method NormalizeDeprecated(m0: Object) returns (m: Object)
    ensures m == Normalized(m0)
  {
    m := m0;
    if Get(m, "dns").Obj? {
      m := m["dns" := Obj(Fields(Get(m, "dns")) - {"independent_cache"})];
    }
    assert m == Update(m0, "dns", NormalizedDns(Get(m0, "dns"))) by {
      assert "dns" in m0 ==> m0["dns" := m0["dns"]] == m0;
    }
    var route := Get(m, "route");
    if !route.Obj? || !Field(route, "rule_set").Arr? {
      assert "route" in m ==> m["route" := m["route"]] == m;
      return;
    }
    var sets := Field(route, "rule_set").items;
    var normalized: seq<Json> := [];
    for i := 0 to |sets|
      invariant |normalized| == i && forall j :: 0 <= j < i ==> normalized[j] == NormalizedSet(sets[j])
    {
      normalized := normalized + [NormalizedSet(sets[i])];
    }
    assert normalized == NormalizedSets(sets);
    m := m["route" := Obj(route.fields["rule_set" := Arr(normalized)])];
  }

  // ---------------------------------------------------------------- the whole merge

  function CriteriaFields(c: Criteria): Object {
    (if c.domain != [] then map["domain" := Arr(Strings(c.domain))] else map[])
    + (if c.domainSuffix != [] then map["domain_suffix" := Arr(Strings(c.domainSuffix))] else map[])
    + (if c.domainRegex != [] then map["domain_regex" := Arr(Strings(c.domainRegex))] else map[])
    + (if c.ipCidr != [] then map["ip_cidr" := Arr(Strings(c.ipCidr))] else map[])
    + (if c.ruleSet != [] then map["rule_set" := Arr(Strings(c.ruleSet))] else map[])
  }

  function RenderRule(r: ClientRule): Json {
    var match' := CriteriaFields(r.criteria);
    Obj(if r.action == REJECT then match'["action" := Str(REJECT)] else match'["outbound" := Str(r.outbound)])
  }

  function RenderRules(rs: seq<ClientRule>): (r: seq<Json>)
    ensures |r| == |rs| && forall i :: 0 <= i < |rs| ==> r[i] == RenderRule(rs[i])
  {
    seq(|rs|, i requires 0 <= i < |rs| => RenderRule(rs[i]))
  }

  function DefinedSets(route: Object): set<string> {
    set j | j in Items(Get(route, "rule_set")) && j.Obj? && Field(j, "tag").Str? :: Field(j, "tag").s
  }

  function FirstUndefined(refs: seq<string>, defined: set<string>): Option<string> {
    if refs == [] then None else if refs[0] !in defined then Some(refs[0]) else FirstUndefined(refs[1..], defined)
  }

  ghost predicate Skipped(input: ClientInput, p: Policy) { p.action == ROUTE && MatchCount(input, p) == 0 }

  /** The first rule set some policy refers to without the template defining it; inactive policies are not asked. */
  ghost function RuleSetError(input: ClientInput, ps: seq<Policy>, defined: set<string>): Option<MergeError> {
    if ps == [] then None
    else if !Skipped(input, ps[0]) && FirstUndefined(ps[0].criteria.ruleSet, defined).Some? then
      Some(UndefinedRuleSet(ps[0].name, FirstUndefined(ps[0].criteria.ruleSet, defined).value))
    else
      RuleSetError(input, ps[1..], defined)
  }

  method CheckRuleSets(input: ClientInput, defined: set<string>) returns (r: Option<MergeError>)
    requires Keyed(input)
    ensures r == RuleSetError(input, input.policies, defined)
  {
    var ps := input.policies;
    for i := 0 to |ps|
      invariant RuleSetError(input, ps, defined) == RuleSetError(input, ps[i..], defined)
    {
      var p := ps[i];
      assert ps[i..][1..] == ps[i + 1..] && ps[i..][0] == p;
      var skip := false;
      if p.action == ROUTE {
        var _, count := ResolveClientPolicyEgress(input, p);
        skip := count == 0;
      }
      if !skip && FirstUndefined(p.criteria.ruleSet, defined).Some? {
        return Some(UndefinedRuleSet(p.name, FirstUndefined(p.criteria.ruleSet, defined).value));
      }
    }
    return None;
  }

  function TagSet(os: seq<Object>): set<string> { set o | o in os && Get(o, "tag").Str? :: Get(o, "tag").s }

  function WithDefaultMode(m: Object): Object {
    var experimental := Fields(Get(m, "experimental"));
    var clash := Fields(Get(experimental, "clash_api"));
    m["experimental" := Obj(experimental["clash_api" := Obj(clash["default_mode" := Str(AUTO)])])]
  }

  function ObjArray(os: seq<Object>): (r: seq<Json>)
    ensures |r| == |os| && forall i :: 0 <= i < |os| ==> r[i] == Obj(os[i])
  {
    seq(|os|, i requires 0 <= i < |os| => Obj(os[i]))
  }

  function MergedRoute(route: Object, rules: seq<Json>, auto: Option<string>): Object {
    var r := route["rules" := Arr(rules)];
    match auto
    case Some(tag) => r["final" := Str(tag)]
    case None => r
  }

  function ManagedDns(dns: Object, plan: DnsPlan): Object {
    dns["servers" := Arr(plan.servers)]["rules" := Arr(plan.rules)]["final" := Str(PROXY_DNS)]
  }

  function UnmanagedDoc(m: Object, route: Object, os: seq<Object>): Object {
    WithDefaultMode(m["route" := Obj(route)])["outbounds" := Arr(ObjArray(os))]
  }

  function ManagedDoc(m: Object, route: Object, plan: DnsPlan, os: seq<Object>): Object {
    WithDefaultMode(m["route" := Obj(route["default_domain_resolver" := Str(PROXY_DNS)])]["dns" := Obj(ManagedDns(Fields(Get(m, "dns")), plan))])
    ["outbounds" := Arr(ObjArray(os))]
  }

  /** The document once its route is merged: DNS is wired when the template opts in with a proxy-dns server. */
  function WireDns(m: Object, route: Object, os: seq<Object>, isAddress: string -> bool): Result<Object, MergeError> {
    var servers := Servers(m);
    if !HasServer(servers, PROXY_DNS) then
      Ok(UnmanagedDoc(m, route, os))
    else
      match PlanDns(servers, Field(Get(m, "dns"), "rules"), TagSet(os))
      case Err(e) => Err(e)
      case Ok(plan) =>
        var all := plan.(servers := WithLocal(plan.servers, servers, AnyBootstrap(os, isAddress)));
        Ok(ManagedDoc(m, route, all, BootstrappedAll(os, isAddress)))
  }

  /** What the template itself gets wrong, before any merging. */
  ghost function TemplateError(m: Object, policyRules: seq<Json>, input: ClientInput): Option<MergeError> {
    var route := Get(m, "route");
    if !route.Obj? then Some(RouteNotObject)
    else if !Field(route, "rules").Arr? && policyRules != [] then Some(RulesNotArray)
    else RuleSetError(input, input.policies, DefinedSets(route.fields))
  }

  function RulesFor(m: Object, policyRules: seq<Json>, os: seq<Object>): seq<Json> {
    MergedRules(Items(Field(Get(m, "route"), "rules")), policyRules, HasServer(Servers(m), PROXY_DNS), TagSet(os))
  }

  function RouteFor(m: Object, policyRules: seq<Json>, os: seq<Object>): Object {
    MergedRoute(Fields(Get(m, "route")), RulesFor(m, policyRules, os), AutoSelector(TagSet(os)))
  }

  /** The merged document, from the normalized template and the rendered policy rules. */
  ghost function MergeWith(m: Object, policyRules: seq<Json>, os: seq<Object>, input: ClientInput, isAddress: string -> bool): Result<Object, MergeError> {
    match TemplateError(m, policyRules, input)
    case Some(e) => Err(e)
    case None => WireDns(m, RouteFor(m, policyRules, os), os, isAddress)
  }

  ghost function MergeOf(template: Json, os: seq<Object>, input: ClientInput, isAddress: string -> bool): Result<Object, MergeError> {
    match ClientPlan(input)
    case Err(e) => Err(BadPolicy(e))
    case Ok(plan) =>
      // A null template decodes to an empty one, which has no route.
      if template.Null? then Err(RouteNotObject)
      else if !template.Obj? then Err(NotAnObject)
      else MergeWith(Normalized(template.fields), RenderRules(plan.rules), os, input, isAddress)
  }

  method FieldsOf(os: seq<OutboundMap>) returns (r: seq<Object>)
    ensures r == Contents(os)
  {
    r := [];
    for i := 0 to |os|
      invariant |r| == i && forall j :: 0 <= j < i ==> r[j] == os[j].fields
    {
      r := r + [os[i].fields];
    }
  }

  method ConfigureClientDns(m: Object, route: Object, os: seq<OutboundMap>, fields: seq<Object>, auto: Option<string>, isAddress: string -> bool)
    returns (r: Result<Object, MergeError>)
    requires fields == Contents(os) && auto == AutoSelector(TagSet(fields))
    ensures r == WireDns(m, route, fields, isAddress)
  {
    var servers := Servers(m);
    if !HasServer(servers, PROXY_DNS) {
      return Ok(UnmanagedDoc(m, route, fields));
    }
    var plan := ConfigureServers(servers, Field(Get(m, "dns"), "rules"), TagSet(fields), auto);
    if plan.Err? {
      return Err(plan.error);
    }
    var result, needsLocal := BootstrapOutbounds(os, isAddress);
    var outbounds := FieldsOf(result);
    var all := plan.value.(servers := WithLocal(plan.value.servers, servers, needsLocal));
    r := Ok(ManagedDoc(m, route, all, outbounds));
  }

  method CheckTemplate(m: Object, policyRules: seq<Json>, input: ClientInput) returns (r: Option<MergeError>)
    requires Keyed(input)
    ensures r == TemplateError(m, policyRules, input)
  {
    var route := Get(m, "route");
    if !route.Obj? {
      return Some(RouteNotObject);
    }
    if !Field(route, "rules").Arr? && |policyRules| != 0 {
      return Some(RulesNotArray);
    }
    r := CheckRuleSets(input, DefinedSets(route.fields));
  }

  lemma RouteForRules(m: Object, policyRules: seq<Json>, os: seq<Object>, rules: seq<Json>)
    requires rules == MergedRules(Items(Field(Get(m, "route"), "rules")), policyRules, HasServer(Servers(m), PROXY_DNS), TagSet(os))
    ensures RouteFor(m, policyRules, os) == MergedRoute(Fields(Get(m, "route")), rules, AutoSelector(TagSet(os)))
  {
    hide MergedRules, MergedRoute, AutoSelector, HasServer;
  }

  method BuildRoute(m: Object, policyRules: seq<Json>, os: seq<Object>) returns (route: Object, auto: Option<string>)
    ensures route == RouteFor(m, policyRules, os) && auto == AutoSelector(TagSet(os))
  {
    var rules;
    var has := TagSet(os);
    rules, auto := MergeRules(Items(Field(Get(m, "route"), "rules")), policyRules, HasServer(Servers(m), PROXY_DNS), has);
    RouteForRules(m, policyRules, os, rules);
    route := MergedRoute(Fields(Get(m, "route")), rules, auto);
  }

  lemma MergeWithRoute(m: Object, policyRules: seq<Json>, os: seq<Object>, input: ClientInput, isAddress: string -> bool, route: Object)
    requires TemplateError(m, policyRules, input).None? && route == RouteFor(m, policyRules, os)
    ensures MergeWith(m, policyRules, os, input, isAddress) == WireDns(m, route, os, isAddress)
  {}

  method MergeValid(m: Object, policyRules: seq<Json>, os: seq<OutboundMap>, fields: seq<Object>, input: ClientInput, isAddress: string -> bool)
    returns (r: Result<Object, MergeError>)
    requires TemplateError(m, policyRules, input).None? && fields == Contents(os)
    ensures r == MergeWith(m, policyRules, fields, input, isAddress)
  {
    var route, auto := BuildRoute(m, policyRules, fields);
    MergeWithRoute(m, policyRules, fields, input, isAddress, route);
    r := ConfigureClientDns(m, route, os, fields, auto, isAddress);
  }

  method MergeTemplate(m: Object, policyRules: seq<Json>, os: seq<OutboundMap>, fields: seq<Object>, input: ClientInput, isAddress: string -> bool)
    returns (r: Result<Object, MergeError>)
    requires Keyed(input) && fields == Contents(os)
    ensures r == MergeWith(m, policyRules, fields, input, isAddress)
  {
    var bad := CheckTemplate(m, policyRules, input);
    if bad.Some? {
      return Err(bad.value);
    }
    r := MergeValid(m, policyRules, os, fields, input, isAddress);
  }

  /** Merges generated outbounds and client policy and mode rules into a template; the caller's outbounds are left as they are. */
  method MergeClientConfig(template: Json, os: seq<OutboundMap>, input: ClientInput, isAddress: string -> bool)
    returns (r: Result<Object, MergeError>)
    requires Keyed(input)
    ensures r == MergeOf(template, old(Contents(os)), input, isAddress)
    ensures forall o :: o in os ==> o.fields == old(o.fields)
  {
    hide ClientPlan, MergeWith, Normalized, RenderRules;
    var plan := BuildClientPolicies(input);
    if plan.Err? {
      return Err(BadPolicy(plan.error));
    }
    if template.Null? {
      return Err(RouteNotObject);
    }
    if !template.Obj? {
      return Err(NotAnObject);
    }
    var m := NormalizeDeprecated(template.fields);
    var fields := FieldsOf(os);
    r := MergeTemplate(m, RenderRules(plan.value.rules), os, fields, input, isAddress);
  }
}
