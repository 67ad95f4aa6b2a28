/** What a merged client document says, read off its JSON. */
module ClientDocument {

  import opened Ordering
  import opened Resources
  import opened Intent
  import opened Routing
  import opened Json
  import opened Client
  import opened Template
  import opened Rearrangement
  import opened ClientDeciding

  // ---------------------------------------------------------------- policy rules, read back

  /** The strings under a key. */
  function Texts(o: Object, k: string): seq<string> {
    var items := Items(Get(o, k));
    seq(|items|, i requires 0 <= i < |items| => if items[i].Str? then items[i].s else "")
  }

  function Text(o: Object, k: string): string { if Get(o, k).Str? then Get(o, k).s else "" }

  /** A route rule of a document as a client reads it. */
  function ReadRule(j: Json): ClientRule {
    var o := Fields(j);
    ClientRule(Criteria(Texts(o, "domain"), Texts(o, "domain_suffix"), Texts(o, "domain_regex"), Texts(o, "ip_cidr"), Texts(o, "rule_set")),
               Text(o, "action"), Text(o, "outbound"))
  }

  const CRITERIA_KEYS := {"domain", "domain_suffix", "domain_regex", "ip_cidr", "rule_set"}

  /** Only the keys of criteria and of an effect, and none of them empty. */
  ghost predicate Tidy(j: Json) {
    j.Obj? && forall k :: k in j.fields ==> (k in CRITERIA_KEYS || k == "action" || k == "outbound") && j.fields[k] != Arr([])
  }

  lemma TextsOf(o: Object, k: string, ss: seq<string>)
    requires Get(o, k) == (if ss == [] then Null else Arr(Strings(ss)))
    ensures Texts(o, k) == ss
  {
    assert |Items(Get(o, k))| == |ss|;
  }

  /** What is under each key of rendered criteria. */
  lemma CriteriaUnder(k: Criteria)
    ensures var o := CriteriaFields(k);
            && Get(o, "domain") == (if k.domain == [] then Null else Arr(Strings(k.domain)))
            && Get(o, "domain_suffix") == (if k.domainSuffix == [] then Null else Arr(Strings(k.domainSuffix)))
            && Get(o, "domain_regex") == (if k.domainRegex == [] then Null else Arr(Strings(k.domainRegex)))
            && Get(o, "ip_cidr") == (if k.ipCidr == [] then Null else Arr(Strings(k.ipCidr)))
            && Get(o, "rule_set") == (if k.ruleSet == [] then Null else Arr(Strings(k.ruleSet)))
  {
    hide Strings;
  }

  lemma CriteriaTidy(k: Criteria)
    ensures forall x :: x in CriteriaFields(k) ==> x in CRITERIA_KEYS && CriteriaFields(k)[x] != Arr([])
  {
    CriteriaUnder(k);
    hide CriteriaFields;
    CriteriaKeys(k);
  }

  lemma CriteriaKeys(k: Criteria)
    ensures CriteriaFields(k).Keys <= CRITERIA_KEYS
  {
    hide Strings;
  }

  lemma RenderedKeeps(r: ClientRule, x: string)
    requires x in CRITERIA_KEYS
    ensures Get(RenderRule(r).fields, x) == Get(CriteriaFields(r.criteria), x)
  {
    hide CriteriaFields;
  }

  lemma RenderedEffect(r: ClientRule)
    requires (r.action == "reject" && r.outbound == "") || (r.action == "" && r.outbound != "")
    ensures Text(RenderRule(r).fields, "action") == r.action && Text(RenderRule(r).fields, "outbound") == r.outbound
    ensures Tidy(RenderRule(r))
  {
    CriteriaTidy(r.criteria);
    assert "action" !in CRITERIA_KEYS && "outbound" !in CRITERIA_KEYS;
    hide CriteriaFields;
  }

  lemma RenderedCriteria(r: ClientRule)
    ensures ReadRule(RenderRule(r)).criteria == r.criteria
  {
    var k, o := r.criteria, RenderRule(r).fields;
    forall x | x in CRITERIA_KEYS ensures Get(o, x) == Get(CriteriaFields(k), x) { RenderedKeeps(r, x); }
    CriteriaUnder(k);
    hide RenderRule, CriteriaFields, Strings, Texts;
    TextsOf(o, "domain", k.domain);
    TextsOf(o, "domain_suffix", k.domainSuffix);
    TextsOf(o, "domain_regex", k.domainRegex);
    TextsOf(o, "ip_cidr", k.ipCidr);
    TextsOf(o, "rule_set", k.ruleSet);
  }

  /** A rendered rule reads back as the rule, and carries nothing else. */
  lemma RenderedReadsBack(r: ClientRule)
    requires (r.action == "reject" && r.outbound == "") || (r.action == "" && r.outbound != "")
    ensures ReadRule(RenderRule(r)) == r && Tidy(RenderRule(r))
  {
    RenderedCriteria(r);
    RenderedEffect(r);
    hide RenderRule, Texts, Text, Tidy;
  }

  // ---------------------------------------------------------------- policy rules in the merged document

  lemma {:induction false} PlannedShape(input: ClientInput, ps: seq<Policy>)
    requires PlanOf(input, ps).Ok?
    ensures forall r :: r in PlanOf(input, ps).value.rules ==> (r.action == "reject" && r.outbound == "") || (r.action == "" && r.outbound == "ai")
  {
    if ps != [] {
      hide MatchCount, ClientTarget, TargetHasGroup;
      PlannedShape(input, ps[..|ps| - 1]);
    }
  }

  function RouteRules(doc: Object): seq<Json> { Items(Field(Get(doc, "route"), "rules")) }

  lemma MergedRulesOf(template: Json, os: seq<Object>, input: ClientInput, isAddress: string -> bool)
    requires MergeOf(template, os, input, isAddress).Ok?
    ensures template.Obj? && ClientPlan(input).Ok?
    ensures var m := Normalized(template.fields);
            RouteRules(MergeOf(template, os, input, isAddress).value) == RulesFor(m, RenderRules(ClientPlan(input).value.rules), os)
  {
    var plan := ClientPlan(input).value;
    var m := Normalized(template.fields);
    hide ClientPlan, Normalized, RenderRules, MergeWith, RulesFor, HasServer, Servers;
    if HasServer(Servers(m), PROXY_DNS) {
      ManagedDocument(m, RenderRules(plan.rules), os, input, isAddress);
    } else {
      UnmanagedDocument(m, RenderRules(plan.rules), os, input, isAddress);
    }
  }

  lemma NormalizedKeepsRules(m: Object)
    ensures Field(Get(Normalized(m), "route"), "rules") == Field(Get(m, "route"), "rules")
  {
    hide NormalizedSets, NormalizedDns;
  }

  lemma InsertedAt(original: seq<Json>, policyRules: seq<Json>, managed: bool, has: set<string>, k: nat)
    requires k < |policyRules|
    ensures PrefixLength(original) + k < |MergedRules(original, policyRules, managed, has)|
    ensures MergedRules(original, policyRules, managed, has)[PrefixLength(original) + k] == policyRules[k]
  {
    hide PrefixLength, Filter, Modes, RewriteAll;
  }

  /** After the preprocessing prefix of the template, the merged document carries the planned rules, readable as planned. */
  lemma DocumentCarriesPlan(template: Json, os: seq<Object>, input: ClientInput, isAddress: string -> bool, k: nat)
    requires MergeOf(template, os, input, isAddress).Ok? && k < |ClientPlan(input).value.rules|
    ensures var rules, n := RouteRules(MergeOf(template, os, input, isAddress).value), PrefixLength(Items(Field(Get(template.fields, "route"), "rules")));
            && n + k < |rules| && ReadRule(rules[n + k]) == ClientPlan(input).value.rules[k] && Tidy(rules[n + k])
  {
    var plan, m := ClientPlan(input).value, Normalized(template.fields);
    MergedRulesOf(template, os, input, isAddress);
    NormalizedKeepsRules(template.fields);
    PlannedShape(input, SortBy(input.policies, PolicyLe));
    assert plan.rules[k] in plan.rules;
    hide MergeOf, ClientPlan, Normalized, ReadRule, RenderRule, Tidy, MergedRules, PrefixLength, HasServer, Servers, TagSet;
    RenderedReadsBack(plan.rules[k]);
    InsertedAt(Items(Field(Get(m, "route"), "rules")), RenderRules(plan.rules), HasServer(Servers(m), PROXY_DNS), TagSet(os), k);
  }

  function ReadRules(js: seq<Json>): (r: seq<ClientRule>)
    ensures |r| == |js| && forall i :: 0 <= i < |js| ==> r[i] == ReadRule(js[i])
  {
    seq(|js|, i requires 0 <= i < |js| => ReadRule(js[i]))
  }

  /** The rules of the document that follow the template's preprocessing prefix, as many as were planned. */
  ghost function PolicyPart(template: Json, os: seq<Object>, input: ClientInput, isAddress: string -> bool): seq<Json>
    requires MergeOf(template, os, input, isAddress).Ok?
  {
    PlanFits(template, os, input, isAddress);
    var n := PrefixLength(Items(Field(Get(template.fields, "route"), "rules")));
    RouteRules(MergeOf(template, os, input, isAddress).value)[n..n + |ClientPlan(input).value.rules|]
  }

  lemma PartReadsPlan(template: Json, os: seq<Object>, input: ClientInput, isAddress: string -> bool)
    requires MergeOf(template, os, input, isAddress).Ok?
    ensures ClientPlan(input).Ok? && ReadRules(PolicyPart(template, os, input, isAddress)) == ClientPlan(input).value.rules
  {
    hide MergeOf, ClientPlan, PrefixLength, ReadRule, Tidy, RouteRules, Field, Get, Items;
    PlanFits(template, os, input, isAddress);
    var planned, part := ClientPlan(input).value.rules, PolicyPart(template, os, input, isAddress);
    var rules, n := RouteRules(MergeOf(template, os, input, isAddress).value), PrefixLength(Items(Field(Get(template.fields, "route"), "rules")));
    forall k | 0 <= k < |planned| ensures ReadRules(part)[k] == planned[k] {
      DocumentCarriesPlan(template, os, input, isAddress, k);
      assert part[k] == rules[n + k];
    }
  }

  /** The client's decision, read off the document: the rules right after the preprocessing prefix decide, for every
      destination, as the acting policy of least priority and name. */
  lemma DocumentDecides(template: Json, os: seq<Object>, input: ClientInput, isAddress: string -> bool, dest: Criteria -> bool)
    requires MergeOf(template, os, input, isAddress).Ok? && DistinctPolicies(input.policies)
    ensures var hit := FirstHit(ReadRules(PolicyPart(template, os, input, isAddress)), dest);
            && ((forall p :: !ActsOn(input, p, dest)) ==> hit.None?)
            && ((exists p :: ActsOn(input, p, dest)) ==> exists p :: ActsFirst(input, p, dest))
            && (forall p :: ActsFirst(input, p, dest) ==> hit.Some? && Orders(input, p, hit.value))
  {
    hide MergeOf, ClientPlan, PolicyPart, FirstHit, ActsOn, ActsFirst, Orders, DistinctPolicies;
    PartReadsPlan(template, os, input, isAddress);
    LeastPolicyActs(input, dest);
  }

  lemma PlanFits(template: Json, os: seq<Object>, input: ClientInput, isAddress: string -> bool)
    requires MergeOf(template, os, input, isAddress).Ok?
    ensures template.Obj? && ClientPlan(input).Ok?
    ensures PrefixLength(Items(Field(Get(template.fields, "route"), "rules"))) + |ClientPlan(input).value.rules|
            <= |RouteRules(MergeOf(template, os, input, isAddress).value)|
  {
    MergedRulesOf(template, os, input, isAddress);
    NormalizedKeepsRules(template.fields);
    hide MergeOf, ClientPlan, Normalized, PrefixLength, Filter, Modes, RewriteAll, HasServer, Servers;
  }
}
