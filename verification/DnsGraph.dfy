/** Bootstrap safety of the merged DNS configuration: which server or outbound needs which to come up. */
module DnsGraph {

  import opened Ordering
  import opened Resources
  import opened Engine
  import opened Routing
  import opened Json
  import opened Client
  import opened Advertised
  import opened ClientTags
  import opened Template
  import opened Rearrangement

  // ---------------------------------------------------------------- the dependency graph

  datatype Vertex = Resolver(tag: string) | Dialer(tag: string)

  /** The DNS servers and outbounds of a document, and the resolver its route falls back to;
      `isAddress` is netip.ParseAddr succeeding. */
  datatype Wiring = Wiring(servers: seq<Json>, outbounds: seq<Object>, fallback: Option<string>, isAddress: string -> bool)

  /** The resolver a server or outbound names, by tag or as an object naming one. */
  function ResolverOf(o: Object): Option<string> {
    match Get(o, "domain_resolver")
    case Str(s) => Some(s)
    case Obj(fields) => if Get(fields, "server").Str? then Some(Get(fields, "server").s) else None
    case _ => None
  }

  /** The endpoint is a hostname, which has to be looked up before it is dialled. */
  predicate NamesHost(o: Object, isAddress: string -> bool) {
    var server := Get(o, "server");
    server.Str? && server.s != "" && !isAddress(server.s)
  }

  /** The resolver a server or outbound depends on: the one it names, else the fallback when its endpoint is a hostname. */
  function Effective(o: Object, fallback: Option<string>, isAddress: string -> bool): Option<string> {
    if ResolverOf(o).Some? then ResolverOf(o) else if NamesHost(o, isAddress) then fallback else None
  }

  /** `o` dials through the outbound d. */
  predicate DialsThrough(o: Object, d: string) { Get(o, "detour") == Str(d) }

  predicate Selects(o: Object, member: string) { Str(member) in Items(Get(o, "outbounds")) }

  predicate ServerLeads(s: Json, w: Wiring, b: Vertex)
    requires s.Obj?
  {
    if b.Dialer? then DialsThrough(s.fields, b.tag) else Effective(s.fields, w.fallback, w.isAddress) == Some(b.tag)
  }

  predicate OutboundLeads(o: Object, w: Wiring, b: Vertex) {
    if b.Dialer? then DialsThrough(o, b.tag) || Selects(o, b.tag) else Effective(o, w.fallback, w.isAddress) == Some(b.tag)
  }

  ghost predicate ServerEdge(w: Wiring, a: Vertex, b: Vertex) {
    exists s :: s in w.servers && a.Resolver? && HasTag(s, a.tag) && ServerLeads(s, w, b)
  }

  ghost predicate OutboundEdge(w: Wiring, a: Vertex, b: Vertex) {
    exists o :: o in w.outbounds && a.Dialer? && Get(o, "tag") == Str(a.tag) && OutboundLeads(o, w, b)
  }

  ghost predicate Edge(w: Wiring, a: Vertex, b: Vertex) { ServerEdge(w, a, b) || OutboundEdge(w, a, b) }

  ghost predicate Ranks(rank: Vertex -> nat, w: Wiring) { forall a, b :: Edge(w, a, b) ==> rank(a) > rank(b) }

  /** Everything can come up in some order: each vertex after all it depends on. */
  ghost predicate Acyclic(w: Wiring) { exists rank :: Ranks(rank, w) }

  ghost predicate IsWalk(w: Wiring, walk: seq<Vertex>) { forall i :: 0 <= i < |walk| - 1 ==> Edge(w, walk[i], walk[i + 1]) }

  lemma {:induction false} WalkDescends(w: Wiring, rank: Vertex -> nat, walk: seq<Vertex>)
    requires Ranks(rank, w) && IsWalk(w, walk) && |walk| >= 2
    ensures rank(walk[0]) > rank(walk[|walk| - 1])
  {
    assert Edge(w, walk[|walk| - 2], walk[|walk| - 1]);
    if |walk| > 2 {
      WalkDescends(w, rank, walk[..|walk| - 1]);
    }
  }

  /** In an acyclic configuration no dependency chain returns to where it started. */
  lemma NoBootstrapLoop(w: Wiring, walk: seq<Vertex>)
    requires Acyclic(w) && IsWalk(w, walk) && |walk| >= 2
    ensures walk[0] != walk[|walk| - 1]
  {
    var rank :| Ranks(rank, w);
    WalkDescends(w, rank, walk);
  }

  // ---------------------------------------------------------------- what the wiring starts from

  /** A template's DNS servers, the generated outbounds, and the outbound tags that exist. */
  datatype Setup = Setup(servers: seq<Json>, outbounds: seq<Object>, has: set<string>, isAddress: string -> bool)

  ghost predicate DistinctTags(servers: seq<Json>) {
    forall i, j, t :: 0 <= i < j < |servers| && HasTag(servers[i], t) ==> !HasTag(servers[j], t)
  }

  predicate IsSelector(o: Object) { Items(Get(o, "outbounds")) != [] }

  /** Generated outbounds dial directly, resolve by default, and select only entries that select nothing. */
  ghost predicate Generated(os: seq<Object>) {
    && (forall o :: o in os ==> !Get(o, "detour").Str? && Get(o, "domain_resolver").Null?)
    && (forall o, m, x :: o in os && x in os && Selects(o, m) && Get(x, "tag") == Str(m) ==> !IsSelector(x))
  }

  ghost predicate Premises(x: Setup) {
    && HasServer(x.servers, PROXY_DNS) && DistinctTags(x.servers) && Generated(x.outbounds)
    && Conflict(x.servers, AvailableModes(x.has)).None?
  }

  function FinalServers(x: Setup): seq<Json>
    requires HasServer(x.servers, PROXY_DNS)
  {
    WithLocal(ManagedServers(x.servers, x.has), x.servers, AnyBootstrap(x.outbounds, x.isAddress))
  }

  /** The merged document. */
  function Wired(x: Setup): Wiring
    requires HasServer(x.servers, PROXY_DNS)
  {
    Wiring(FinalServers(x), BootstrappedAll(x.outbounds, x.isAddress), Some(PROXY_DNS), x.isAddress)
  }

  // ---------------------------------------------------------------- the condition, on the template and the outbounds

  predicate IsRegional(t: string, ms: seq<Mode>) { exists m :: m in ms && t == RegionalTag(m) }

  /** Regional servers are clones of proxy-dns, so a resolver naming one of them leads where proxy-dns leads. */
  function Fold(t: string, ms: seq<Mode>): string { if IsRegional(t, ms) then PROXY_DNS else t }

  /** The resolver a template server will depend on: hostnames without one fall back to proxy-dns. */
  function Needs(x: Setup, s: Json): Option<string>
    requires s.Obj?
  {
    Effective(s.fields, Some(PROXY_DNS), x.isAddress)
  }

  ghost predicate TemplateRanks(f: string -> nat, x: Setup) {
    forall s, t, r :: s in x.servers && HasTag(s, t) && Needs(x, s) == Some(r) ==> f(t) > f(Fold(r, AvailableModes(x.has)))
  }

  /** The template's own resolver references can be ordered. */
  ghost predicate ResolversOrdered(x: Setup) { exists f :: TemplateRanks(f, x) }

  /** The server tagged t, a clone standing for proxy-dns, needs the resolver r. */
  ghost predicate Resolves(x: Setup, t: string, r: string) {
    exists s :: s in x.servers && HasTag(s, Fold(t, AvailableModes(x.has))) && Needs(x, s) == Some(r)
  }

  ghost predicate IsChain(x: Setup, chain: seq<string>) {
    chain != [] && chain[0] == LOCAL_DNS && forall i :: 0 <= i < |chain| - 1 ==> Resolves(x, chain[i], chain[i + 1])
  }

  /** Following resolver references from local leads to t. */
  ghost predicate LocalNeeds(x: Setup, t: string) { exists chain :: IsChain(x, chain) && chain[|chain| - 1] == t }

  predicate IsHost(x: Setup, o: Object, d: string) { Get(o, "tag") == Str(d) && NeedsBootstrap(o, x.isAddress) }

  /** Dialling through the outbound d means looking a hostname up: it is one, or it selects one. */
  ghost predicate ReachesHost(x: Setup, d: string) {
    || (exists o :: o in x.outbounds && IsHost(x, o, d))
    || (exists o, m, y :: o in x.outbounds && Get(o, "tag") == Str(d) && Selects(o, m) && y in x.outbounds && IsHost(x, y, m))
  }

  /** The outbound the server tagged t is going to dial through. */
  ghost predicate WillDial(x: Setup, t: string, d: string) {
    || (t == PROXY_DNS && AutoSelector(x.has) == Some(d))
    || (exists m :: m in AvailableModes(x.has) && t == RegionalTag(m) && d == m.tag)
    || (t != PROXY_DNS && exists s :: s in x.servers && HasTag(s, t) && DialsThrough(s.fields, d))
  }

  /** No server that local depends on, local included, dials through a proxy that local has to look up. */
  ghost predicate LocalStandsAlone(x: Setup) {
    forall t, d :: LocalNeeds(x, t) && WillDial(x, t, d) ==> !ReachesHost(x, d)
  }

  // ---------------------------------------------------------------- merged servers, by origin

  function ProxyDnsServer(servers: seq<Json>, has: set<string>): Object
    requires HasServer(servers, PROXY_DNS)
  {
    WithDetour(servers[ServerIndex(servers, PROXY_DNS)].fields, AutoSelector(has))
  }

  /** A merged server is one of the template's, the rewired proxy-dns, a regional clone, or the added local server. */
  lemma ServerOrigin(x: Setup, s: Json)
    requires HasServer(x.servers, PROXY_DNS) && s in FinalServers(x)
    ensures || (s in x.servers && (DistinctTags(x.servers) ==> !HasTag(s, PROXY_DNS))) || s == Obj(ProxyDnsServer(x.servers, x.has))
            || (exists m :: m in AvailableModes(x.has) && s == RegionalServer(ProxyDnsServer(x.servers, x.has), m))
            || (s == LOCAL_SERVER && !HasServer(x.servers, LOCAL_DNS))
  {
    hide AvailableModes, RegionalServer, AnyBootstrap, AutoSelector, WithDetour;
    var servers, k := x.servers, ServerIndex(x.servers, PROXY_DNS);
    var proxyDns, ms := ProxyDnsServer(servers, x.has), AvailableModes(x.has);
    var kept := servers[k := Obj(proxyDns)];
    assert ManagedServers(servers, x.has) == kept + RegionalServers(proxyDns, ms);
    if s in kept {
      var i :| 0 <= i < |kept| && kept[i] == s;
      if i != k {
        assert s == servers[i];
        if DistinctTags(servers) {
          assert !HasTag(servers[i], PROXY_DNS) by { if i < k {} else { assert HasTag(servers[k], PROXY_DNS); } }
        }
      }
    } else if s in RegionalServers(proxyDns, ms) {
      var i :| 0 <= i < |ms| && RegionalServers(proxyDns, ms)[i] == s;
      assert ms[i] in ms;
    }
  }

  lemma ServerKept(x: Setup, s: Json)
    requires HasServer(x.servers, PROXY_DNS) && s in x.servers && !HasTag(s, PROXY_DNS)
    ensures s in FinalServers(x)
  {
    var i :| 0 <= i < |x.servers| && x.servers[i] == s;
    assert ManagedServers(x.servers, x.has)[i] == s;
  }

  lemma CloneEmitted(x: Setup)
    requires HasServer(x.servers, PROXY_DNS)
    ensures Obj(ProxyDnsServer(x.servers, x.has)) in FinalServers(x)
    ensures forall m :: m in AvailableModes(x.has) ==> RegionalServer(ProxyDnsServer(x.servers, x.has), m) in FinalServers(x)
  {
    hide AvailableModes, RegionalServer, AnyBootstrap, AutoSelector, WithDetour;
    var k, proxyDns, ms := ServerIndex(x.servers, PROXY_DNS), ProxyDnsServer(x.servers, x.has), AvailableModes(x.has);
    assert ManagedServers(x.servers, x.has)[k] == Obj(proxyDns);
    forall m | m in ms ensures RegionalServer(proxyDns, m) in ManagedServers(x.servers, x.has) {
      var i :| 0 <= i < |ms| && ms[i] == m;
      assert RegionalServers(proxyDns, ms)[i] == RegionalServer(proxyDns, m);
      assert RegionalServer(proxyDns, m) in RegionalServers(proxyDns, ms);
    }
  }

  /** proxy-dns and its clones keep the template's endpoint and resolver; only tag and detour are rewired. */
  lemma CloneFields(x: Setup, m: Mode)
    requires HasServer(x.servers, PROXY_DNS)
    ensures var o, s := ProxyDnsServer(x.servers, x.has), x.servers[ServerIndex(x.servers, PROXY_DNS)];
            && Needs(x, Obj(o)) == Needs(x, s) && Get(o, "tag") == Str(PROXY_DNS)
            && Needs(x, RegionalServer(o, m)) == Needs(x, s) && Get(RegionalServer(o, m).fields, "tag") == Str(RegionalTag(m))
            && (forall d :: DialsThrough(o, d) <==> AutoSelector(x.has) == Some(d))
            && (forall d :: DialsThrough(RegionalServer(o, m).fields, d) <==> d == m.tag)
  {
    hide AutoSelector, RegionalTag, ServerIndex;
  }

  lemma {:induction false} NoConflictMeansFree(servers: seq<Json>, ms: seq<Mode>, m: Mode)
    requires Conflict(servers, ms).None? && m in ms
    ensures !HasServer(servers, RegionalTag(m))
  {
    if ms[0] != m {
      assert ms == [ms[0]] + ms[1..];
      NoConflictMeansFree(servers, ms[1..], m);
    }
  }

  lemma TagMeansServer(servers: seq<Json>, s: Json, t: string)
    requires s in servers && HasTag(s, t)
    ensures HasServer(servers, t)
  {
    var i :| 0 <= i < |servers| && servers[i] == s;
  }

  lemma TemplateTagIsPlain(x: Setup, s: Json, t: string)
    requires s in x.servers && HasTag(s, t) && Conflict(x.servers, AvailableModes(x.has)).None?
    ensures Fold(t, AvailableModes(x.has)) == t && !IsRegional(t, AvailableModes(x.has))
  {
    TagMeansServer(x.servers, s, t);
    forall m | m in AvailableModes(x.has) ensures t != RegionalTag(m) { NoConflictMeansFree(x.servers, AvailableModes(x.has), m); }
  }

  lemma ReservedTags(m: Mode)
    ensures RegionalTag(m) != PROXY_DNS && RegionalTag(m) != LOCAL_DNS && LOCAL_DNS != PROXY_DNS
    ensures forall n: Mode :: RegionalTag(m) == RegionalTag(n) ==> m.tag == n.tag
  {
    assert |RegionalTag(m)| > |PROXY_DNS| && RegionalTag(m)[0] == 'p';
    forall n: Mode | RegionalTag(m) == RegionalTag(n) ensures m.tag == n.tag {
      assert RegionalTag(m)[10..] == m.tag && RegionalTag(n)[10..] == n.tag;
    }
  }

  lemma PlainFolds(ms: seq<Mode>)
    ensures Fold(PROXY_DNS, ms) == PROXY_DNS && Fold(LOCAL_DNS, ms) == LOCAL_DNS
    ensures forall m :: m in ms ==> Fold(RegionalTag(m), ms) == PROXY_DNS
  {
    forall m: Mode ensures RegionalTag(m) != PROXY_DNS && RegionalTag(m) != LOCAL_DNS { ReservedTags(m); }
  }

  lemma SameServer(servers: seq<Json>, s: Json)
    requires DistinctTags(servers) && s in servers && HasTag(s, PROXY_DNS)
    ensures HasServer(servers, PROXY_DNS) && servers[ServerIndex(servers, PROXY_DNS)] == s
  {
    TagMeansServer(servers, s, PROXY_DNS);
    var i :| 0 <= i < |servers| && servers[i] == s;
    var k := ServerIndex(servers, PROXY_DNS);
    assert i >= k;
    assert HasTag(servers[k], PROXY_DNS);
  }

  // ---------------------------------------------------------------- what merged servers and outbounds lead to

  /** The edges out of a merged server are those the template and the available regions give it. */
  lemma ServerLeadsTo(x: Setup, t: string, b: Vertex)
    requires Premises(x)
    ensures ServerEdge(Wired(x), Resolver(t), b) <==> if b.Dialer? then WillDial(x, t, b.tag) else Resolves(x, t, b.tag)
  {
    if ServerEdge(Wired(x), Resolver(t), b) {
      var s :| s in FinalServers(x) && HasTag(s, t) && ServerLeads(s, Wired(x), b);
      MergedLeads(x, s, t, b);
    }
    if if b.Dialer? then WillDial(x, t, b.tag) else Resolves(x, t, b.tag) {
      TemplateLeads(x, t, b);
    }
  }

  lemma MergedLeads(x: Setup, s: Json, t: string, b: Vertex)
    requires Premises(x) && s in FinalServers(x) && HasTag(s, t) && ServerLeads(s, Wired(x), b)
    ensures if b.Dialer? then WillDial(x, t, b.tag) else Resolves(x, t, b.tag)
  {
    var o, ms := ProxyDnsServer(x.servers, x.has), AvailableModes(x.has);
    var own := x.servers[ServerIndex(x.servers, PROXY_DNS)];
    assert own in x.servers && HasTag(own, PROXY_DNS);
    PlainFolds(ms);
    ServerOrigin(x, s);
    hide FinalServers, AvailableModes, AutoSelector, ProxyDnsServer, RegionalServer, RegionalTag, Conflict, ServerIndex, Fold, Effective;
    if s in x.servers && !HasTag(s, PROXY_DNS) {
      TemplateTagIsPlain(x, s, t);
    } else if s == Obj(o) {
      CloneFields(x, Mode("", ""));
    } else if m :| m in ms && s == RegionalServer(o, m) {
      CloneFields(x, m);
    }
  }

  lemma TemplateLeads(x: Setup, t: string, b: Vertex)
    requires Premises(x) && if b.Dialer? then WillDial(x, t, b.tag) else Resolves(x, t, b.tag)
    ensures ServerEdge(Wired(x), Resolver(t), b)
  {
    var o, ms := ProxyDnsServer(x.servers, x.has), AvailableModes(x.has);
    CloneEmitted(x);
    CloneFields(x, Mode("", ""));
    forall m | m in ms ensures RegionalTag(m) != PROXY_DNS { ReservedTags(m); }
    hide FinalServers, AvailableModes, AutoSelector, ProxyDnsServer, RegionalServer, RegionalTag, Conflict, ServerIndex, Effective;
    if t == PROXY_DNS {
      PlainFolds(ms);
      if !b.Dialer? {
        var s :| s in x.servers && HasTag(s, PROXY_DNS) && Needs(x, s) == Some(b.tag);
        SameServer(x.servers, s);
      }
      assert HasTag(Obj(o), t) && ServerLeads(Obj(o), Wired(x), b);
    } else if IsRegional(t, ms) {
      RegionalLeads(x, t, b);
    } else {
      var s :| s in x.servers && HasTag(s, t) && if b.Dialer? then DialsThrough(s.fields, b.tag) else Needs(x, s) == Some(b.tag);
      ServerKept(x, s);
      assert ServerLeads(s, Wired(x), b);
    }
  }

  lemma RegionalLeads(x: Setup, t: string, b: Vertex)
    requires Premises(x) && IsRegional(t, AvailableModes(x.has))
    requires if b.Dialer? then WillDial(x, t, b.tag) else Resolves(x, t, b.tag)
    ensures ServerEdge(Wired(x), Resolver(t), b)
  {
    var o, ms := ProxyDnsServer(x.servers, x.has), AvailableModes(x.has);
    CloneEmitted(x);
    hide FinalServers, AvailableModes, AutoSelector, ProxyDnsServer, RegionalServer, RegionalTag, Conflict, ServerIndex, Effective;
    var m :| m in ms && t == RegionalTag(m);
    ReservedTags(m);
    CloneFields(x, m);
    if b.Dialer? {
      if s :| s in x.servers && HasTag(s, t) { TemplateTagIsPlain(x, s, t); }
    } else {
      var s :| s in x.servers && HasTag(s, PROXY_DNS) && Needs(x, s) == Some(b.tag);
      SameServer(x.servers, s);
    }
    assert HasTag(RegionalServer(o, m), t) && ServerLeads(RegionalServer(o, m), Wired(x), b);
  }

  /** The edges out of a merged outbound: selected members, and local when it is a hostname. */
  lemma OutboundLeadsTo(x: Setup, t: string, b: Vertex)
    requires Premises(x)
    ensures OutboundEdge(Wired(x), Dialer(t), b) <==>
            exists o :: o in x.outbounds && Get(o, "tag") == Str(t)
                        && if b.Dialer? then Selects(o, b.tag) else b.tag == LOCAL_DNS && NeedsBootstrap(o, x.isAddress)
  {
    hide FinalServers, OutboundLeads, NeedsBootstrap, Bootstrapped, Selects, Generated;
    var w, os := Wired(x), x.outbounds;
    if OutboundEdge(w, Dialer(t), b) {
      var y :| y in w.outbounds && Get(y, "tag") == Str(t) && OutboundLeads(y, w, b);
      var i :| 0 <= i < |os| && w.outbounds[i] == y;
      BootstrappedLeads(x, os[i], b);
    }
    if o :| o in os && Get(o, "tag") == Str(t) && if b.Dialer? then Selects(o, b.tag) else b.tag == LOCAL_DNS && NeedsBootstrap(o, x.isAddress) {
      var i :| 0 <= i < |os| && os[i] == o;
      BootstrappedLeads(x, o, b);
      assert w.outbounds[i] in w.outbounds;
    }
  }

  lemma BootstrappedLeads(x: Setup, o: Object, b: Vertex)
    requires Premises(x) && o in x.outbounds
    ensures var y := Bootstrapped(o, x.isAddress);
            && Get(y, "tag") == Get(o, "tag")
            && (OutboundLeads(y, Wired(x), b) <==> if b.Dialer? then Selects(o, b.tag) else b.tag == LOCAL_DNS && NeedsBootstrap(o, x.isAddress))
  {
    hide FinalServers, BootstrappedAll;
  }

  // ---------------------------------------------------------------- the condition suffices

  lemma {:induction false} ChainDescends(x: Setup, f: string -> nat, chain: seq<string>)
    requires TemplateRanks(f, x) && IsChain(x, chain)
    ensures f(Fold(chain[|chain| - 1], AvailableModes(x.has))) <= f(LOCAL_DNS)
  {
    var ms, n := AvailableModes(x.has), |chain|;
    PlainFolds(ms);
    if n > 1 {
      ChainDescends(x, f, chain[..n - 1]);
      assert Resolves(x, chain[n - 2], chain[n - 1]);
    }
  }

  lemma LocalNeedsStep(x: Setup, t: string, r: string)
    requires LocalNeeds(x, t) && Resolves(x, t, r)
    ensures LocalNeeds(x, r)
  {
    var chain :| IsChain(x, chain) && chain[|chain| - 1] == t;
    var more := chain + [r];
    forall i | 0 <= i < |more| - 1 ensures Resolves(x, more[i], more[i + 1]) {
      if i < |chain| - 1 { assert Resolves(x, chain[i], chain[i + 1]); }
    }
    assert IsChain(x, more);
  }

  lemma LocalNeedsItself(x: Setup)
    ensures LocalNeeds(x, LOCAL_DNS)
  {
    assert IsChain(x, [LOCAL_DNS]);
  }

  ghost predicate SelectorNamed(x: Setup, t: string) { exists o :: o in x.outbounds && Get(o, "tag") == Str(t) && IsSelector(o) }

  /** Local and what it needs come first, then the hostname proxies, then everything else. */
  ghost function MergedRank(f: string -> nat, x: Setup, v: Vertex): nat {
    match v
    case Resolver(t) =>
      var r := f(Fold(t, AvailableModes(x.has)));
      if LocalNeeds(x, t) then 2 + r else 5 + f(LOCAL_DNS) + r
    case Dialer(t) => (if ReachesHost(x, t) then 3 + f(LOCAL_DNS) else 0) + (if SelectorNamed(x, t) then 1 else 0)
  }

  lemma ServerEdgeDescends(x: Setup, f: string -> nat, t: string, b: Vertex)
    requires Premises(x) && TemplateRanks(f, x) && LocalStandsAlone(x) && ServerEdge(Wired(x), Resolver(t), b)
    ensures MergedRank(f, x, Resolver(t)) > MergedRank(f, x, b)
  {
    hide Wired, ServerEdge, AvailableModes;
    ServerLeadsTo(x, t, b);
    if b.Resolver? {
      hide Fold, LocalNeeds;
      if LocalNeeds(x, t) {
        LocalNeedsStep(x, t, b.tag);
      } else if LocalNeeds(x, b.tag) {
        NeededIsLow(x, f, b.tag);
      }
    }
  }

  lemma NeededIsLow(x: Setup, f: string -> nat, t: string)
    requires TemplateRanks(f, x) && LocalNeeds(x, t)
    ensures f(Fold(t, AvailableModes(x.has))) <= f(LOCAL_DNS)
  {
    var chain :| IsChain(x, chain) && chain[|chain| - 1] == t;
    ChainDescends(x, f, chain);
  }

  lemma OutboundEdgeDescends(x: Setup, f: string -> nat, t: string, b: Vertex)
    requires Premises(x) && TemplateRanks(f, x) && OutboundEdge(Wired(x), Dialer(t), b)
    ensures MergedRank(f, x, Dialer(t)) > MergedRank(f, x, b)
  {
    hide Wired, OutboundEdge, AvailableModes;
    OutboundLeadsTo(x, t, b);
    var o :| o in x.outbounds && Get(o, "tag") == Str(t)
             && if b.Dialer? then Selects(o, b.tag) else b.tag == LOCAL_DNS && NeedsBootstrap(o, x.isAddress);
    if b.Dialer? {
      assert IsSelector(o) && SelectorNamed(x, t);
      MemberIsLeaf(x, o, b.tag);
    } else {
      LocalNeedsItself(x);
      PlainFolds(AvailableModes(x.has));
      assert IsHost(x, o, t);
    }
  }

  lemma MemberIsLeaf(x: Setup, o: Object, m: string)
    requires Generated(x.outbounds) && o in x.outbounds && Selects(o, m)
    ensures !SelectorNamed(x, m)
    ensures ReachesHost(x, m) ==> forall t :: Get(o, "tag") == Str(t) ==> ReachesHost(x, t)
  {
    if ReachesHost(x, m) {
      assert exists y :: y in x.outbounds && IsHost(x, y, m);
    }
  }

  lemma ConditionSuffices(x: Setup)
    requires Premises(x) && ResolversOrdered(x) && LocalStandsAlone(x)
    ensures Acyclic(Wired(x))
  {
    hide Wired, ServerEdge, OutboundEdge, MergedRank;
    var f :| TemplateRanks(f, x);
    var rank: Vertex -> nat := v => MergedRank(f, x, v);
    forall a, b | Edge(Wired(x), a, b) ensures rank(a) > rank(b) {
      EdgeEnds(Wired(x), a, b);
      if ServerEdge(Wired(x), a, b) {
        ServerEdgeDescends(x, f, a.tag, b);
      } else {
        OutboundEdgeDescends(x, f, a.tag, b);
      }
    }
    assert Ranks(rank, Wired(x));
  }

  lemma EdgeEnds(w: Wiring, a: Vertex, b: Vertex)
    ensures ServerEdge(w, a, b) ==> a == Resolver(a.tag)
    ensures OutboundEdge(w, a, b) ==> a == Dialer(a.tag)
  {}

  // ---------------------------------------------------------------- the condition is necessary

  ghost function LeastRank(g: Vertex -> nat, ms: seq<Mode>): nat {
    if ms == [] then g(Resolver(PROXY_DNS)) else
      var r := LeastRank(g, ms[1..]);
      if g(Resolver(RegionalTag(ms[0]))) < r then g(Resolver(RegionalTag(ms[0]))) else r
  }

  lemma {:induction false} LeastRankFacts(g: Vertex -> nat, ms: seq<Mode>)
    ensures LeastRank(g, ms) <= g(Resolver(PROXY_DNS))
    ensures forall m :: m in ms ==> LeastRank(g, ms) <= g(Resolver(RegionalTag(m)))
    ensures LeastRank(g, ms) == g(Resolver(PROXY_DNS)) || exists m :: m in ms && LeastRank(g, ms) == g(Resolver(RegionalTag(m)))
  {
    if ms != [] {
      LeastRankFacts(g, ms[1..]);
      assert ms == [ms[0]] + ms[1..];
    }
  }

  ghost function TemplateRank(g: Vertex -> nat, ms: seq<Mode>, t: string): nat {
    if t == PROXY_DNS then LeastRank(g, ms) else g(Resolver(t))
  }

  lemma ResolvesDescends(x: Setup, g: Vertex -> nat, t: string, r: string)
    requires Premises(x) && Ranks(g, Wired(x)) && Resolves(x, t, r)
    ensures g(Resolver(t)) > g(Resolver(r))
  {
    ServerLeadsTo(x, t, Resolver(r));
    assert Edge(Wired(x), Resolver(t), Resolver(r));
  }

  lemma TemplateEdgeDescends(x: Setup, g: Vertex -> nat, s: Json, t: string, r: string)
    requires Premises(x) && Ranks(g, Wired(x)) && s in x.servers && HasTag(s, t) && Needs(x, s) == Some(r)
    ensures TemplateRank(g, AvailableModes(x.has), t) > TemplateRank(g, AvailableModes(x.has), Fold(r, AvailableModes(x.has)))
  {
    var ms := AvailableModes(x.has);
    hide Wired, Ranks, Needs, AvailableModes, RegionalTag, Conflict;
    LeastRankFacts(g, ms);
    PlainFolds(ms);
    TemplateTagIsPlain(x, s, t);
    assert Resolves(x, t, r);
    ResolvesDescends(x, g, t, r);
    if t == PROXY_DNS {
      forall m | m in ms ensures g(Resolver(RegionalTag(m))) > g(Resolver(r)) {
        assert Resolves(x, RegionalTag(m), r);
        ResolvesDescends(x, g, RegionalTag(m), r);
      }
      assert r != PROXY_DNS;
      assert !IsRegional(r, ms);
    }
  }

  lemma AcyclicMeansOrdered(x: Setup)
    requires Premises(x) && Acyclic(Wired(x))
    ensures ResolversOrdered(x)
  {
    hide Wired, Ranks;
    var ms := AvailableModes(x.has);
    var g :| Ranks(g, Wired(x));
    var f: string -> nat := t => TemplateRank(g, ms, t);
    forall s, t, r | s in x.servers && HasTag(s, t) && Needs(x, s) == Some(r) ensures f(t) > f(Fold(r, ms)) {
      TemplateEdgeDescends(x, g, s, t, r);
    }
    assert TemplateRanks(f, x);
  }

  lemma {:induction false} LocalIsAbove(x: Setup, g: Vertex -> nat, chain: seq<string>)
    requires Premises(x) && Ranks(g, Wired(x)) && IsChain(x, chain)
    ensures g(Resolver(chain[|chain| - 1])) <= g(Resolver(LOCAL_DNS))
  {
    hide Wired, Ranks, Resolves;
    var n := |chain|;
    if n > 1 {
      LocalIsAbove(x, g, chain[..n - 1]);
      ResolvesDescends(x, g, chain[n - 2], chain[n - 1]);
    }
  }

  lemma HostIsAboveLocal(x: Setup, g: Vertex -> nat, o: Object, d: string)
    requires Premises(x) && Ranks(g, Wired(x)) && o in x.outbounds && IsHost(x, o, d)
    ensures g(Dialer(d)) > g(Resolver(LOCAL_DNS))
  {
    hide Wired, OutboundEdge;
    OutboundLeadsTo(x, d, Resolver(LOCAL_DNS));
    assert Edge(Wired(x), Dialer(d), Resolver(LOCAL_DNS));
  }

  lemma ReachingIsAboveLocal(x: Setup, g: Vertex -> nat, d: string)
    requires Premises(x) && Ranks(g, Wired(x)) && ReachesHost(x, d)
    ensures g(Dialer(d)) > g(Resolver(LOCAL_DNS))
  {
    hide Wired, OutboundEdge;
    if o :| o in x.outbounds && IsHost(x, o, d) {
      HostIsAboveLocal(x, g, o, d);
    } else {
      var o, m, y :| o in x.outbounds && Get(o, "tag") == Str(d) && Selects(o, m) && y in x.outbounds && IsHost(x, y, m);
      HostIsAboveLocal(x, g, y, m);
      OutboundLeadsTo(x, d, Dialer(m));
      assert Edge(Wired(x), Dialer(d), Dialer(m));
    }
  }

  lemma AcyclicMeansAlone(x: Setup)
    requires Premises(x) && Acyclic(Wired(x))
    ensures LocalStandsAlone(x)
  {
    hide Wired, ServerEdge, Resolves, ReachesHost, WillDial;
    var g :| Ranks(g, Wired(x));
    forall t, d | LocalNeeds(x, t) && WillDial(x, t, d) ensures !ReachesHost(x, d) {
      var chain :| IsChain(x, chain) && chain[|chain| - 1] == t;
      LocalIsAbove(x, g, chain);
      ServerLeadsTo(x, t, Dialer(d));
      assert Edge(Wired(x), Resolver(t), Dialer(d));
      if ReachesHost(x, d) { ReachingIsAboveLocal(x, g, d); }
    }
  }

  /** The merged document is acyclic exactly when the template's resolver references can be ordered, reading each regional
      tag as proxy-dns and a hostname without resolver as naming it, and no server that local depends on dials through a
      proxy whose hostname local has to look up. */
  lemma DnsBootstrapSafety(x: Setup)
    requires Premises(x)
    ensures Acyclic(Wired(x)) <==> ResolversOrdered(x) && LocalStandsAlone(x)
  {
    hide Wired, Acyclic, ResolversOrdered, LocalStandsAlone;
    if ResolversOrdered(x) && LocalStandsAlone(x) { ConditionSuffices(x); }
    if Acyclic(Wired(x)) {
      AcyclicMeansOrdered(x);
      AcyclicMeansAlone(x);
    }
  }

  // ---------------------------------------------------------------- safe templates

  /** The local server neither dials through anything nor needs a resolver. */
  ghost predicate PlainLocal(x: Setup) {
    forall s :: s in x.servers && HasTag(s, LOCAL_DNS) ==> !Get(s.fields, "detour").Str? && Needs(x, s).None?
  }

  lemma PlainLocalNeedsNothing(x: Setup, r: string)
    requires PlainLocal(x)
    ensures !Resolves(x, LOCAL_DNS, r)
  {
    PlainFolds(AvailableModes(x.has));
  }

  /** With a plain local server, the template's own resolver references decide. */
  lemma PlainLocalSafety(x: Setup)
    requires Premises(x) && PlainLocal(x)
    ensures Acyclic(Wired(x)) <==> ResolversOrdered(x)
  {
    hide Wired, Acyclic, ResolversOrdered, ReachesHost, AutoSelector, AvailableModes, RegionalTag, Conflict, Resolves;
    forall m: Mode ensures RegionalTag(m) != LOCAL_DNS && LOCAL_DNS != PROXY_DNS { ReservedTags(m); }
    forall t | LocalNeeds(x, t) ensures t == LOCAL_DNS {
      var chain :| IsChain(x, chain) && chain[|chain| - 1] == t;
      if |chain| > 1 { PlainLocalNeedsNothing(x, chain[1]); }
    }
    DnsBootstrapSafety(x);
  }

  /** Templates whose servers name no resolver and no hostname are safe once local dials directly. */
  lemma PlainTemplatesAreSafe(x: Setup)
    requires Premises(x) && PlainLocal(x) && forall s :: s in x.servers && s.Obj? ==> Needs(x, s).None?
    ensures Acyclic(Wired(x))
  {
    hide Wired, Acyclic;
    var f: string -> nat := t => 0;
    assert TemplateRanks(f, x);
    PlainLocalSafety(x);
  }

  /** Without the bootstrap resolver, a hostname proxy behind the Auto selector closes a cycle: proxy-dns dials
      through it, and it is looked up with proxy-dns. */
  lemma BootstrapIsNeeded(x: Setup, d: string)
    requires Premises(x) && AutoSelector(x.has) == Some(d) && ReachesHost(x, d)
    ensures !Acyclic(Wired(x).(outbounds := x.outbounds))
  {
    var w := Wired(x).(outbounds := x.outbounds);
    hide Wired, AutoSelector, ReachesHost, Edge;
    if g :| Ranks(g, w) {
      PlainEdgeToDialer(x, d);
      ReachingFallsBack(x, g, d);
    }
  }

  lemma PlainEdgeToDialer(x: Setup, d: string)
    requires Premises(x) && AutoSelector(x.has) == Some(d)
    ensures Edge(Wired(x).(outbounds := x.outbounds), Resolver(PROXY_DNS), Dialer(d))
  {
    hide FinalServers, AutoSelector;
    CloneEmitted(x);
    CloneFields(x, Mode("", ""));
    var s := Obj(ProxyDnsServer(x.servers, x.has));
    assert HasTag(s, PROXY_DNS) && ServerLeads(s, Wired(x).(outbounds := x.outbounds), Dialer(d));
  }

  lemma ReachingFallsBack(x: Setup, g: Vertex -> nat, d: string)
    requires Premises(x) && Ranks(g, Wired(x).(outbounds := x.outbounds)) && ReachesHost(x, d)
    ensures g(Dialer(d)) > g(Resolver(PROXY_DNS))
  {
    hide Wired, IsHost, Edge, Selects;
    if o :| o in x.outbounds && IsHost(x, o, d) {
      HostFallsBack(x, o, d);
    } else {
      var o, m, y :| o in x.outbounds && Get(o, "tag") == Str(d) && Selects(o, m) && y in x.outbounds && IsHost(x, y, m);
      HostFallsBack(x, y, m);
      MemberEdge(Wired(x).(outbounds := x.outbounds), o, d, m);
    }
  }

  lemma MemberEdge(w: Wiring, o: Object, d: string, m: string)
    requires o in w.outbounds && Get(o, "tag") == Str(d) && Selects(o, m)
    ensures Edge(w, Dialer(d), Dialer(m))
  {
    assert OutboundLeads(o, w, Dialer(m));
  }

  lemma HostFallsBack(x: Setup, o: Object, d: string)
    requires Premises(x) && o in x.outbounds && IsHost(x, o, d)
    ensures Edge(Wired(x).(outbounds := x.outbounds), Dialer(d), Resolver(PROXY_DNS))
  {
    hide FinalServers;
    assert OutboundLeads(o, Wired(x).(outbounds := x.outbounds), Resolver(PROXY_DNS));
  }

  // ---------------------------------------------------------------- merged server tags

  lemma ModesDistinct(has: set<string>, i: nat, j: nat)
    requires i < j < |AvailableModes(has)|
    ensures AvailableModes(has)[i].tag != AvailableModes(has)[j].tag
  {
    var ms := AvailableModes(has);
    FilterNoDup(IsAvailable(has), MODES);
    FilterMembers(IsAvailable(has), MODES);
    assert ms[i] in MODES && ms[j] in MODES;
  }

  /** The tag each merged server carries, by index. */
  lemma MergedTag(x: Setup, i: nat, t: string)
    requires HasServer(x.servers, PROXY_DNS) && i < |FinalServers(x)|
    ensures var s, n, ms := FinalServers(x)[i], |x.servers|, AvailableModes(x.has);
            HasTag(s, t) <==> if i < n then HasTag(x.servers[i], t) else if i < n + |ms| then t == RegionalTag(ms[i - n]) else t == LOCAL_DNS
    ensures var n := |x.servers| + |AvailableModes(x.has)|; i >= n ==> i == n && !HasServer(x.servers, LOCAL_DNS)
  {
    hide AnyBootstrap, AvailableModes, AutoSelector, RegionalTag;
    var k, o := ServerIndex(x.servers, PROXY_DNS), ProxyDnsServer(x.servers, x.has);
    CloneFields(x, Mode("", ""));
    if |x.servers| <= i < |x.servers| + |AvailableModes(x.has)| {
      CloneFields(x, AvailableModes(x.has)[i - |x.servers|]);
    }
  }

  /** Distinct template tags give distinct merged tags. */
  lemma MergedTagsDistinct(x: Setup)
    requires HasServer(x.servers, PROXY_DNS) && DistinctTags(x.servers) && Conflict(x.servers, AvailableModes(x.has)).None?
    ensures DistinctTags(FinalServers(x))
  {
    hide FinalServers, AvailableModes, HasServer, HasTag, Conflict, RegionalTag;
    var servers, final, ms, n := x.servers, FinalServers(x), AvailableModes(x.has), |x.servers|;
    forall i, j, t | 0 <= i < j < |final| && HasTag(final[i], t) ensures !HasTag(final[j], t) {
      MergedTag(x, i, t);
      MergedTag(x, j, t);
      if i < n <= j {
        assert servers[i] in servers;
        TagMeansServer(servers, servers[i], t);
        if j < n + |ms| { NoConflictMeansFree(servers, ms, ms[j - n]); }
      } else if n <= i {
        ReservedTags(ms[i - n]);
        if j < n + |ms| { ModesDistinct(x.has, i - n, j - n); }
      }
    }
  }

  // ---------------------------------------------------------------- the outbounds a client config is built with

  /** Derived secrets become text by hashing, which stays a parameter. */
  function AuthFields(auth: Auth, secret: AuthValue -> string): Object { map k | k in auth :: Str(secret(auth[k])) }

  function Render(o: ClientOutbound, secret: AuthValue -> string): Object {
    match o
    case Proxy(tag, kind, server, port, auth, tls) =>
      map["type" := Str(kind), "tag" := Str(tag), "server" := Str(server), "server_port" := Num(port)]
      + AuthFields(auth, secret)
      + (match tls
         case None => map[]
         case Some(name) => map["tls" := Obj(map["enabled" := Bool(true)] + if name != "" then map["server_name" := Str(name)] else map["insecure" := Bool(true)])])
    case GroupSelector(tag, members) =>
      map["type" := Str("selector"), "tag" := Str(tag), "outbounds" := Arr(Strings(members))]
    case ClientDirect(tag) =>
      map["type" := Str("direct"), "tag" := Str(tag)]
  }

  function RenderAll(os: seq<ClientOutbound>, secret: AuthValue -> string): (r: seq<Object>)
    ensures |r| == |os| && forall i :: 0 <= i < |os| ==> r[i] == Render(os[i], secret)
  {
    seq(|os|, i requires 0 <= i < |os| => Render(os[i], secret))
  }

  lemma ClientAuthKeys(protocol: string, uuid: string, user: string, target: string)
    ensures ClientAuth(protocol, uuid, user, target).Keys <= {"username", "password", "uuid"}
  {}

  /** A rendered outbound carries its tag, dials and resolves by default, and selects only what a selector lists. */
  ghost predicate PlainRendering(o: ClientOutbound, r: Object) {
    && Get(r, "tag") == Str(o.tag) && Get(r, "detour") == Null && Get(r, "domain_resolver") == Null
    && (IsSelector(r) ==> o.GroupSelector?)
    && (forall m :: Selects(r, m) ==> o.GroupSelector? && m in o.members)
  }

  lemma RenderedProxy(o: ClientOutbound, secret: AuthValue -> string)
    requires o.Proxy? && o.auth.Keys <= {"username", "password", "uuid"}
    ensures PlainRendering(o, Render(o, secret))
  {
    hide AuthFields, Render, Selects, IsSelector;
    RenderedTag(o, secret);
    RenderedLacks(o, secret, "detour");
    RenderedLacks(o, secret, "domain_resolver");
    RenderedLacks(o, secret, "outbounds");
    NothingSelected(Render(o, secret));
  }

  lemma RenderedTag(o: ClientOutbound, secret: AuthValue -> string)
    requires o.Proxy? && o.auth.Keys <= {"username", "password", "uuid"}
    ensures Get(Render(o, secret), "tag") == Str(o.tag)
  {
    assert "tag" !in AuthFields(o.auth, secret);
  }

  /** A rendered proxy carries its address and exactly its secrets. */
  lemma RenderedAddress(o: ClientOutbound, secret: AuthValue -> string, k: string)
    requires o.Proxy? && o.auth.Keys <= {"username", "password", "uuid"}
    ensures var r := Render(o, secret); Get(r, "type") == Str(o.kind) && Get(r, "server") == Str(o.server) && Get(r, "server_port") == Num(o.port)
    ensures k in {"username", "password", "uuid"} ==> Get(Render(o, secret), k) == if k in o.auth then Str(secret(o.auth[k])) else Null
  {
    var auth := AuthFields(o.auth, secret);
    assert forall j :: j in {"type", "tag", "server", "server_port", "tls"} ==> j !in auth;
    assert Get(auth, k) == if k in o.auth then Str(secret(o.auth[k])) else Null;
    hide AuthFields;
  }

  /** It uses TLS only where the proxy does: by server name if it knows one, unverified otherwise. */
  lemma RenderedTls(o: ClientOutbound, secret: AuthValue -> string)
    requires o.Proxy? && o.auth.Keys <= {"username", "password", "uuid"}
    ensures o.tls.None? <==> Get(Render(o, secret), "tls") == Null
    ensures o.tls.Some? ==>
              var tls := Fields(Get(Render(o, secret), "tls"));
              && Get(tls, "enabled") == Bool(true) && Get(tls, "server_name") == (if o.tls.value != "" then Str(o.tls.value) else Null)
              && Get(tls, "insecure") == if o.tls.value != "" then Null else Bool(true)
  {
    assert "tls" !in AuthFields(o.auth, secret);
    hide AuthFields;
  }

  lemma RenderedLacks(o: ClientOutbound, secret: AuthValue -> string, k: string)
    requires o.Proxy? && o.auth.Keys <= {"username", "password", "uuid"}
    requires k !in {"type", "tag", "server", "server_port", "tls", "username", "password", "uuid"}
    ensures Get(Render(o, secret), k) == Null
  {
    assert k !in AuthFields(o.auth, secret);
  }

  lemma NothingSelected(r: Object)
    requires Get(r, "outbounds") == Null
    ensures !IsSelector(r) && forall m :: !Selects(r, m)
  {}

  lemma RenderedOther(o: ClientOutbound, secret: AuthValue -> string)
    requires !o.Proxy?
    ensures PlainRendering(o, Render(o, secret))
  {
    if o.GroupSelector? {
      StringsMembers(o.members);
      assert Get(Render(o, secret), "outbounds") == Arr(Strings(o.members));
    } else {
      assert Get(Render(o, secret), "outbounds") == Null;
    }
  }

  lemma ProxyAuthKeys(input: ClientInput, o: ClientOutbound)
    requires o in OutboundsOf(input) && o.Proxy?
    ensures o.auth.Keys <= {"username", "password", "uuid"}
  {
    var ps := Paths(input, input.inboundNodes);
    OutboundMember(input, o);
    if o in Selectors(input, ps) { SelectorShape(input, ps, o); }
    ProxyShape(input, ps, o);
    var p :| p in ps && o == ProxyOf(input, p);
    ClientAuthKeys(EffectiveProtocol(p.inbound), input.uuid, input.user.name, p.ref.name);
  }

  lemma RenderedFields(input: ClientInput, o: ClientOutbound, secret: AuthValue -> string)
    requires o in OutboundsOf(input)
    ensures PlainRendering(o, Render(o, secret))
  {
    if o.Proxy? {
      ProxyAuthKeys(input, o);
      RenderedProxy(o, secret);
    } else {
      RenderedOther(o, secret);
    }
  }

  lemma StringsMembers(ss: seq<string>)
    ensures forall m :: Str(m) in Strings(ss) <==> m in ss
  {
    forall m ensures Str(m) in Strings(ss) <==> m in ss {
      if m in ss {
        var i :| 0 <= i < |ss| && ss[i] == m;
        assert Strings(ss)[i] == Str(m);
      }
    }
  }

  /** A client config with unique tags meets what the graph asks of outbounds. */
  lemma RenderedIsGenerated(input: ClientInput, secret: AuthValue -> string)
    requires NoDup(TagList(OutboundsOf(input)))
    ensures Generated(RenderAll(OutboundsOf(input), secret))
  {
    var os := OutboundsOf(input);
    var rendered := RenderAll(os, secret);
    forall o | o in rendered ensures Get(o, "detour") == Null && Get(o, "domain_resolver") == Null {
      var i :| 0 <= i < |os| && rendered[i] == o;
      RenderedFields(input, os[i], secret);
    }
    forall o, m, x | o in rendered && x in rendered && Selects(o, m) && Get(x, "tag") == Str(m) ensures !IsSelector(x) {
      var i :| 0 <= i < |os| && rendered[i] == o;
      var j :| 0 <= j < |os| && rendered[j] == x;
      RenderedFields(input, os[i], secret);
      RenderedFields(input, os[j], secret);
      MemberIsProxy(input, os[i], os[j]);
    }
  }

  lemma MemberIsProxy(input: ClientInput, o: ClientOutbound, x: ClientOutbound)
    requires NoDup(TagList(OutboundsOf(input))) && o in OutboundsOf(input) && x in OutboundsOf(input)
    requires o.GroupSelector? && x.tag in o.members
    ensures x.Proxy?
  {
    hide OutboundsOf;
    var os := OutboundsOf(input);
    assert Lists(os, o.tag, x.tag);
    SelectorClosure(input, x.tag);
    var y :| y in os && y.Proxy? && y.tag == x.tag;
    var i :| 0 <= i < |os| && os[i] == x;
    var j :| 0 <= j < |os| && os[j] == y;
    assert TagList(os)[i] == TagList(os)[j];
  }

  function ObjectsOf(js: seq<Json>): (r: seq<Object>)
    ensures |r| == |js| && forall i :: 0 <= i < |js| ==> r[i] == Fields(js[i])
  {
    seq(|js|, i requires 0 <= i < |js| => Fields(js[i]))
  }

  /** The wiring a client reads off a document. */
  function WiringOf(doc: Object, isAddress: string -> bool): Wiring {
    var fallback := Get(Fields(Get(doc, "route")), "default_domain_resolver");
    Wiring(Servers(doc), ObjectsOf(Items(Get(doc, "outbounds"))), if fallback.Str? then Some(fallback.s) else None, isAddress)
  }

  /** A merged document is wired as planned. */
  lemma DocumentWiring(m: Object, policyRules: seq<Json>, os: seq<Object>, input: ClientInput, isAddress: string -> bool)
    requires HasServer(Servers(m), PROXY_DNS) && MergeWith(m, policyRules, os, input, isAddress).Ok?
    ensures WiringOf(MergeWith(m, policyRules, os, input, isAddress).value, isAddress) == Wired(Setup(Servers(m), os, TagSet(os), isAddress))
  {
    ManagedDocument(m, policyRules, os, input, isAddress);
    ManagedRest(m, policyRules, os, input, isAddress);
    assert ObjectsOf(ObjArray(BootstrappedAll(os, isAddress))) == BootstrappedAll(os, isAddress);
    hide MergeWith, ManagedServers, AnyBootstrap, Servers, WithLocal, BootstrappedAll;
  }

  /** Merging an opted-in template: server tags stay distinct, and the document is acyclic exactly under the condition. */
  lemma MergedDocumentSafety(m: Object, policyRules: seq<Json>, os: seq<Object>, input: ClientInput, isAddress: string -> bool)
    requires HasServer(Servers(m), PROXY_DNS) && MergeWith(m, policyRules, os, input, isAddress).Ok?
    requires DistinctTags(Servers(m)) && Generated(os)
    ensures var doc, x := MergeWith(m, policyRules, os, input, isAddress).value, Setup(Servers(m), os, TagSet(os), isAddress);
            && DistinctTags(Servers(doc))
            && (Acyclic(WiringOf(doc, isAddress)) <==> ResolversOrdered(x) && LocalStandsAlone(x))
  {
    var x := Setup(Servers(m), os, TagSet(os), isAddress);
    ManagedDocument(m, policyRules, os, input, isAddress);
    DocumentWiring(m, policyRules, os, input, isAddress);
    hide MergeWith, ManagedServers, AnyBootstrap, WithLocal, Acyclic, ResolversOrdered, LocalStandsAlone, DistinctTags, Conflict;
    MergedTagsDistinct(x);
    DnsBootstrapSafety(x);
  }
}
