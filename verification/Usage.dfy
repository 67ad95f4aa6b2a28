/** The usage collector: counters are reset when read, merged per cycle, and written in one batch. */
module Usage {

  import opened Ordering
  import opened Resources
  import opened Counters

  // ---------------------------------------------------------------- 64-bit counters

  const TWO63 := 0x8000_0000_0000_0000
  const TWO64 := 0x1_0000_0000_0000_0000

  /** Two's complement wrap-around. */
  function Wrap(x: int): int { (x + TWO63) % TWO64 - TWO63 }

  lemma WrapAdd(a: int, b: int)
    ensures Wrap(Wrap(a) + b) == Wrap(a + b)
  {}

  lemma WrapFits(x: int)
    ensures -TWO63 <= x < TWO63 ==> Wrap(x) == x
  {}

  // ---------------------------------------------------------------- one poll cycle

  datatype RawStat = RawStat(name: string, value: int)

  /** A polled node, and what its query returned: nothing when it failed. */
  datatype Target = Target(nodeName: string, response: Option<seq<RawStat>>)

  datatype Record = Record(user: string, inbound: string, node: string, uplink: int, downlink: int, collectedAt: int)

  /** A recognised, nonzero counter of one response. */
  datatype Flow = Flow(inbound: string, counter: Counter, value: int)

  function Key(inbound: string, user: string, node: string): string { inbound + "\0" + user + "\0" + node }

  function FlowKey(f: Flow): string { Key(f.inbound, f.counter.user, f.counter.node) }

  function EntryFlow(inbound: string, e: RawStat): seq<Flow> {
    match ParseUserCounterName(e.name)
    case Some(c) => if e.value != 0 then [Flow(inbound, c, e.value)] else []
    case None => []
  }

  function EntryFlows(inbound: string, es: seq<RawStat>): seq<Flow> {
    if es == [] then [] else EntryFlows(inbound, es[..|es| - 1]) + EntryFlow(inbound, es[|es| - 1])
  }

  function TargetFlows(t: Target): seq<Flow> { if t.response.Some? then EntryFlows(t.nodeName, t.response.value) else [] }

  function Flows(ts: seq<Target>): seq<Flow> {
    if ts == [] then [] else Flows(ts[..|ts| - 1]) + TargetFlows(ts[|ts| - 1])
  }

  type Index = map<string, Record>

  function Credit(r: Record, f: Flow): Record {
    if f.counter.direction == UPLINK then r.(uplink := Wrap(r.uplink + f.value)) else r.(downlink := Wrap(r.downlink + f.value))
  }

  /** Merging one counter into the index. */
  function Merge(index: Index, f: Flow, now: int): Index {
    var fresh' := Record(f.counter.user, f.inbound, f.counter.node, 0, 0, now);
    index[FlowKey(f) := Credit(if FlowKey(f) in index then index[FlowKey(f)] else fresh', f)]
  }

  function MergeAll(fs: seq<Flow>, now: int): Index {
    if fs == [] then map[] else Merge(MergeAll(fs[..|fs| - 1], now), fs[|fs| - 1], now)
  }

  lemma MergeSnoc(fs: seq<Flow>, f: Flow, now: int)
    ensures MergeAll(fs + [f], now) == Merge(MergeAll(fs, now), f, now)
  {
    assert (fs + [f])[..|fs|] == fs;
  }

  /** A record of the cycle under way, updated in place as counters come in. */
  class UsageRecord {
    const user: string
    const inbound: string
    const node: string
    const collectedAt: int
    var uplink: int
    var downlink: int

    constructor (user: string, inbound: string, node: string, now: int)
      ensures Value() == Record(user, inbound, node, 0, 0, now)
    {
      this.user, this.inbound, this.node, collectedAt, uplink, downlink := user, inbound, node, now, 0, 0;
    }

    function Value(): Record reads this { Record(user, inbound, node, uplink, downlink, collectedAt) }

    method Add(direction: string, value: int)
      modifies this
      ensures Value() == if direction == UPLINK then old(Value()).(uplink := Wrap(old(uplink) + value))
                         else old(Value()).(downlink := Wrap(old(downlink) + value))
    {
      if direction == UPLINK {
        uplink := Wrap(uplink + value);
      } else {
        downlink := Wrap(downlink + value);
      }
    }
  }

  type RecordIndex = map<string, UsageRecord>

  /** No record is held under two keys, so an update reaches one entry. */
  ghost predicate Separate(records: RecordIndex) {
    forall j, k :: j in records && k in records && records[j] == records[k] ==> j == k
  }

  ghost function View(records: RecordIndex): Index
    reads records.Values
  {
    map k | k in records :: records[k].Value()
  }

  method MergeEntry(records0: RecordIndex, inbound: string, c: Counter, value: int, now: int) returns (records: RecordIndex)
    requires Separate(records0)
    modifies records0.Values
    ensures Separate(records) && fresh(records.Values - records0.Values)
    ensures View(records) == Merge(old(View(records0)), Flow(inbound, c, value), now)
  {
    records := records0;
    var key := Key(inbound, c.user, c.node);
    if key !in records {
      var rec := new UsageRecord(c.user, inbound, c.node, now);
      assert forall k :: k in records0 ==> records0[k] in records0.Values;
      records := records[key := rec];
    }
    assert forall k :: k in records0 ==> records0[k] in records0.Values;
    records[key].Add(c.direction, value);
  }

  lemma EntryFlowsStep(before: seq<Flow>, inbound: string, es: seq<RawStat>, i: nat)
    requires i < |es|
    ensures before + EntryFlows(inbound, es[..i + 1]) == before + EntryFlows(inbound, es[..i]) + EntryFlow(inbound, es[i])
  {
    assert es[..i + 1][..i] == es[..i];
  }

  method MergeEntries(ghost before: seq<Flow>, records0: RecordIndex, inbound: string, es: seq<RawStat>, now: int)
    returns (records: RecordIndex)
    requires Separate(records0) && View(records0) == MergeAll(before, now)
    modifies records0.Values
    ensures Separate(records) && fresh(records.Values - records0.Values)
    ensures View(records) == MergeAll(before + EntryFlows(inbound, es), now)
  {
    hide MergeAll, ParseUserCounterName, View, Separate, Merge;
    records := records0;
    assert before + EntryFlows(inbound, es[..0]) == before;
    for i := 0 to |es|
      invariant Separate(records) && fresh(records.Values - records0.Values)
      invariant View(records) == MergeAll(before + EntryFlows(inbound, es[..i]), now)
    {
      hide EntryFlows;
      ghost var sofar := before + EntryFlows(inbound, es[..i]);
      EntryFlowsStep(before, inbound, es, i);
      var parsed := ParseUserCounterName(es[i].name);
      if parsed.Some? && es[i].value != 0 {
        MergeSnoc(sofar, Flow(inbound, parsed.value, es[i].value), now);
        records := MergeEntry(records, inbound, parsed.value, es[i].value, now);
      } else {
        assert sofar + [] == sofar;
      }
    }
    assert es[..|es|] == es;
  }

  method CollectRecords(ts: seq<Target>, now: int) returns (records: RecordIndex)
    ensures fresh(records.Values) && View(records) == MergeAll(Flows(ts), now)
  {
    records := map[];
    for i := 0 to |ts|
      invariant Separate(records) && fresh(records.Values)
      invariant View(records) == MergeAll(Flows(ts[..i]), now)
    {
      assert ts[..i + 1][..i] == ts[..i];
      if ts[i].response.Some? {
        records := MergeEntries(Flows(ts[..i]), records, ts[i].nodeName, ts[i].response.value, now);
      } else {
        assert Flows(ts[..i]) + [] == Flows(ts[..i]);
      }
    }
    assert ts[..|ts|] == ts;
  }

  ghost predicate Lists(order: seq<string>, index: Index) { NoDup(order) && forall k :: k in order <==> k in index }

  function BatchOf(order: seq<string>, index: Index): (r: seq<Record>)
    requires forall k :: k in order ==> k in index
    ensures |r| == |order| && forall i :: 0 <= i < |order| ==> r[i] == index[order[i]]
  {
    seq(|order|, i requires 0 <= i < |order| => assert order[i] in order; index[order[i]])
  }

  /** The batch holds every record of the index once, in whatever order the map is walked. */
  method BuildBatch(records: RecordIndex) returns (batch: seq<Record>, ghost order: seq<string>)
    ensures Lists(order, View(records)) && batch == BatchOf(order, View(records))
  {
    var keys := IterationOrder(records.Keys);
    order := keys;
    batch := [];
    for i := 0 to |keys|
      invariant |batch| == i && forall j :: 0 <= j < i ==> keys[j] in records && batch[j] == View(records)[keys[j]]
    {
      assert keys[i] in keys;
      batch := batch + [records[keys[i]].Value()];
    }
  }

  // ---------------------------------------------------------------- exact sums

  function Amount(f: Flow, key: string, up: bool): int {
    if FlowKey(f) == key && (f.counter.direction == UPLINK) == up then f.value else 0
  }

  /** The bytes of one direction recorded under a key. */
  function SumOf(fs: seq<Flow>, key: string, up: bool): int {
    if fs == [] then 0 else SumOf(fs[..|fs| - 1], key, up) + Amount(fs[|fs| - 1], key, up)
  }

  ghost predicate HasKey(fs: seq<Flow>, key: string) { exists f :: f in fs && FlowKey(f) == key }

  lemma {:induction false} SumOfAbsent(fs: seq<Flow>, key: string, up: bool)
    requires !HasKey(fs, key)
    ensures SumOf(fs, key, up) == 0
  {
    if fs != [] {
      assert fs[|fs| - 1] in fs;
      assert forall f :: f in fs[..|fs| - 1] ==> f in fs;
      SumOfAbsent(fs[..|fs| - 1], key, up);
    }
  }

  lemma MergeEffect(index: Index, f: Flow, now: int, key: string)
    ensures key != FlowKey(f) ==> (key in Merge(index, f, now) <==> key in index)
    ensures key != FlowKey(f) && key in index ==> Merge(index, f, now)[key] == index[key]
    ensures key == FlowKey(f) ==>
              var up, down := if key in index then index[key].uplink else 0, if key in index then index[key].downlink else 0;
              && key in Merge(index, f, now)
              && Merge(index, f, now)[key].uplink == (if f.counter.direction == UPLINK then Wrap(up + f.value) else up)
              && Merge(index, f, now)[key].downlink == (if f.counter.direction == UPLINK then down else Wrap(down + f.value))
  {
    hide Wrap, Key;
  }

  lemma HasKeySnoc(fs: seq<Flow>, f: Flow, key: string)
    ensures HasKey(fs + [f], key) <==> HasKey(fs, key) || FlowKey(f) == key
  {
    assert f in fs + [f];
  }

  lemma SumSnoc(fs: seq<Flow>, f: Flow, key: string, up: bool)
    ensures SumOf(fs + [f], key, up) == SumOf(fs, key, up) + Amount(f, key, up)
  {
    assert (fs + [f])[..|fs|] == fs;
  }

  /** The index has a record under the key exactly when it occurs, holding the wrapped per-direction sums. */
  ghost predicate Totals(index: Index, fs: seq<Flow>, key: string) {
    && (key in index <==> HasKey(fs, key))
    && (key in index ==> index[key].uplink == Wrap(SumOf(fs, key, true)) && index[key].downlink == Wrap(SumOf(fs, key, false)))
  }

  lemma TotalsStep(index: Index, fs: seq<Flow>, f: Flow, now: int, key: string)
    requires Totals(index, fs, key)
    ensures Totals(Merge(index, f, now), fs + [f], key)
  {
    hide Merge, SumOf, HasKey, Key, FlowKey, Wrap;
    SumSnoc(fs, f, key, true);
    SumSnoc(fs, f, key, false);
    HasKeySnoc(fs, f, key);
    MergeEffect(index, f, now, key);
    if FlowKey(f) == key {
      WrapAdd(SumOf(fs, key, true), f.value);
      WrapAdd(SumOf(fs, key, false), f.value);
      WrapFits(0);
      if !HasKey(fs, key) {
        SumOfAbsent(fs, key, true);
        SumOfAbsent(fs, key, false);
      }
    }
  }

  lemma {:induction false} MergeAllSums(fs: seq<Flow>, now: int, key: string)
    ensures Totals(MergeAll(fs, now), fs, key)
  {
    if fs != [] {
      hide Merge, Totals;
      var front, f := fs[..|fs| - 1], fs[|fs| - 1];
      MergeAllSums(front, now, key);
      TotalsStep(MergeAll(front, now), front, f, now, key);
      assert fs == front + [f];
    }
  }

  predicate NulFree(s: string) { '\0' !in s }

  ghost predicate NulFreeFlows(fs: seq<Flow>) { forall f :: f in fs ==> NulFree(f.inbound) && NulFree(f.counter.user) }

  lemma CutUnique(a: string, x: string, b: string, y: string)
    requires NulFree(a) && NulFree(b) && a + "\0" + x == b + "\0" + y
    ensures a == b && x == y
  {
    var s, t := a + "\0" + x, b + "\0" + y;
    assert s[|a|] == '\0' && t[|b|] == '\0';
    assert a == s[..|a|] && b == t[..|b|];
    assert forall i :: 0 <= i < |a| ==> s[i] != '\0';
    assert forall i :: 0 <= i < |b| ==> t[i] != '\0';
    assert x == s[|a| + 1..] && y == t[|b| + 1..];
  }

  /** A key determines the inbound node, the user and the node. */
  lemma KeyInjective(i: string, u: string, n: string, j: string, v: string, m: string)
    requires NulFree(i) && NulFree(u) && NulFree(j) && NulFree(v) && Key(i, u, n) == Key(j, v, m)
    ensures i == j && u == v && n == m
  {
    assert Key(i, u, n) == i + "\0" + (u + "\0" + n) && Key(j, v, m) == j + "\0" + (v + "\0" + m);
    CutUnique(i, u + "\0" + n, j, v + "\0" + m);
    CutUnique(u, n, v, m);
  }

  lemma {:induction false} RecordNames(fs: seq<Flow>, now: int, key: string)
    requires key in MergeAll(fs, now) && NulFreeFlows(fs)
    ensures var r := MergeAll(fs, now)[key]; NulFree(r.inbound) && NulFree(r.user) && key == Key(r.inbound, r.user, r.node) && r.collectedAt == now
  {
    var front, f := fs[..|fs| - 1], fs[|fs| - 1];
    assert fs == front + [f];
    if key in MergeAll(front, now) { RecordNames(front, now, key); }
  }

  /** The bytes of one direction that user u moved through node n, entering at inbound i. */
  function Moved(fs: seq<Flow>, i: string, u: string, n: string, up: bool): int {
    if fs == [] then 0 else
      var f := fs[|fs| - 1];
      Moved(fs[..|fs| - 1], i, u, n, up)
      + if f.inbound == i && f.counter.user == u && f.counter.node == n && (f.counter.direction == UPLINK) == up then f.value else 0
  }

  lemma {:induction false} MovedIsSumOf(fs: seq<Flow>, i: string, u: string, n: string, up: bool)
    requires NulFreeFlows(fs) && NulFree(i) && NulFree(u)
    ensures Moved(fs, i, u, n, up) == SumOf(fs, Key(i, u, n), up)
  {
    if fs != [] {
      var f := fs[|fs| - 1];
      assert f in fs && forall g :: g in fs[..|fs| - 1] ==> g in fs;
      MovedIsSumOf(fs[..|fs| - 1], i, u, n, up);
      if FlowKey(f) == Key(i, u, n) { KeyInjective(f.inbound, f.counter.user, f.counter.node, i, u, n); }
    }
  }

  ghost predicate Fits(fs: seq<Flow>) { forall k, up :: -TWO63 <= SumOf(fs, k, up) < TWO63 }

  /** One record per (inbound, user, node) with a nonzero recognised counter, and none besides, holding the exact sums. */
  lemma OneRecordPerFlow(fs: seq<Flow>, now: int, order: seq<string>, i: string, u: string, n: string)
    requires NulFreeFlows(fs) && Fits(fs) && Lists(order, MergeAll(fs, now)) && NulFree(i) && NulFree(u)
    ensures var batch := BatchOf(order, MergeAll(fs, now));
            if exists f :: f in fs && f.inbound == i && f.counter.user == u && f.counter.node == n
            then exists k :: 0 <= k < |batch| && batch[k] == Record(u, i, n, Moved(fs, i, u, n, true), Moved(fs, i, u, n, false), now)
                             && forall j :: 0 <= j < |batch| && j != k ==> !(batch[j].inbound == i && batch[j].user == u && batch[j].node == n)
            else forall j :: 0 <= j < |batch| ==> !(batch[j].inbound == i && batch[j].user == u && batch[j].node == n)
  {
    var index, key := MergeAll(fs, now), Key(i, u, n);
    MovedIsSumOf(fs, i, u, n, true);
    MovedIsSumOf(fs, i, u, n, false);
    var batch := BatchOf(order, index);
    MergeAllSums(fs, now, key);
    WrapFits(SumOf(fs, key, true));
    WrapFits(SumOf(fs, key, false));
    forall j | 0 <= j < |batch| && batch[j].inbound == i && batch[j].user == u && batch[j].node == n ensures order[j] == key {
      assert order[j] in order;
      RecordNames(fs, now, order[j]);
    }
    if f :| f in fs && f.inbound == i && f.counter.user == u && f.counter.node == n {
      assert key in order;
      var k :| 0 <= k < |order| && order[k] == key;
      RecordNames(fs, now, key);
      KeyInjective(index[key].inbound, index[key].user, index[key].node, i, u, n);
      assert batch[k] == Record(u, i, n, Moved(fs, i, u, n, true), Moved(fs, i, u, n, false), now);
    } else {
      forall f | f in fs ensures FlowKey(f) != key {
        if FlowKey(f) == key { KeyInjective(f.inbound, f.counter.user, f.counter.node, i, u, n); }
      }
      assert key !in order;
    }
  }

  // ---------------------------------------------------------------- conservation

  function FlowBytes(fs: seq<Flow>): int { if fs == [] then 0 else FlowBytes(fs[..|fs| - 1]) + fs[|fs| - 1].value }

  function BatchBytes(rs: seq<Record>): int {
    if rs == [] then 0 else BatchBytes(rs[..|rs| - 1]) + rs[|rs| - 1].uplink + rs[|rs| - 1].downlink
  }

  function SumOver(order: seq<string>, fs: seq<Flow>): int {
    if order == [] then 0 else
      SumOver(order[..|order| - 1], fs) + SumOf(fs, order[|order| - 1], true) + SumOf(fs, order[|order| - 1], false)
  }

  lemma {:induction false} SumOverSnoc(order: seq<string>, fs: seq<Flow>)
    requires NoDup(order) && fs != []
    ensures var f := fs[|fs| - 1];
            SumOver(order, fs) == SumOver(order, fs[..|fs| - 1]) + if FlowKey(f) in order then f.value else 0
  {
    if order != [] {
      var front, k := order[..|order| - 1], order[|order| - 1];
      SumOverSnoc(front, fs);
      assert order == front + [k] && k !in front;
    }
  }

  lemma {:induction false} SumOverNothing(order: seq<string>)
    ensures SumOver(order, []) == 0
  {
    if order != [] { SumOverNothing(order[..|order| - 1]); }
  }

  /** Summing per key over all keys is summing everything. */
  lemma {:induction false} SumOverAll(order: seq<string>, fs: seq<Flow>)
    requires NoDup(order) && forall f :: f in fs ==> FlowKey(f) in order
    ensures SumOver(order, fs) == FlowBytes(fs)
  {
    if fs == [] {
      SumOverNothing(order);
    } else {
      assert fs[|fs| - 1] in fs;
      SumOverAll(order, fs[..|fs| - 1]);
      SumOverSnoc(order, fs);
    }
  }

  lemma {:induction false} BatchIsSumOver(order: seq<string>, fs: seq<Flow>, now: int)
    requires Fits(fs) && forall k :: k in order ==> k in MergeAll(fs, now)
    ensures BatchBytes(BatchOf(order, MergeAll(fs, now))) == SumOver(order, fs)
  {
    if order != [] {
      var front, k := order[..|order| - 1], order[|order| - 1];
      BatchIsSumOver(front, fs, now);
      assert k in order;
      MergeAllSums(fs, now, k);
      WrapFits(SumOf(fs, k, true));
      WrapFits(SumOf(fs, k, false));
      var batch := BatchOf(order, MergeAll(fs, now));
      assert batch[..|batch| - 1] == BatchOf(front, MergeAll(fs, now));
    }
  }

  /** A batch carries exactly the bytes of the recognised counters it was merged from. */
  lemma BatchConservesBytes(fs: seq<Flow>, now: int, order: seq<string>)
    requires Fits(fs) && Lists(order, MergeAll(fs, now))
    ensures BatchBytes(BatchOf(order, MergeAll(fs, now))) == FlowBytes(fs)
  {
    forall f | f in fs ensures FlowKey(f) in order { MergeAllSums(fs, now, FlowKey(f)); }
    BatchIsSumOver(order, fs, now);
    SumOverAll(order, fs);
  }

  lemma {:induction false} FlowBytesConcat(a: seq<Flow>, b: seq<Flow>)
    ensures FlowBytes(a + b) == FlowBytes(a) + FlowBytes(b)
  {
    if b == [] {
      assert a + b == a;
    } else {
      var front := b[..|b| - 1];
      FlowBytesConcat(a, front);
      assert (a + b)[..|a + b| - 1] == a + front;
    }
  }

  /** The bytes of a response whose counter names the parser does, or does not, recognise. */
  function ResponseBytes(es: seq<RawStat>, recognised: bool): int {
    if es == [] then 0 else
      var e := es[|es| - 1];
      ResponseBytes(es[..|es| - 1], recognised) + if ParseUserCounterName(e.name).Some? == recognised then e.value else 0
  }

  /** Of a response, exactly the bytes under recognised names are merged. */
  lemma {:induction false} RecognisedBytesAreMerged(inbound: string, es: seq<RawStat>)
    ensures FlowBytes(EntryFlows(inbound, es)) == ResponseBytes(es, true)
  {
    if es != [] {
      var e := es[|es| - 1];
      RecognisedBytesAreMerged(inbound, es[..|es| - 1]);
      FlowBytesConcat(EntryFlows(inbound, es[..|es| - 1]), EntryFlow(inbound, e));
      assert FlowBytes([]) == 0;
      if ParseUserCounterName(e.name).Some? && e.value != 0 {
        var f := EntryFlow(inbound, e)[0];
        assert EntryFlow(inbound, e) == [f] && [f][..0] == [];
      }
    }
  }

  /** All bytes of a response. Reading resets the counters, so this is what leaves the node. */
  function TotalBytes(es: seq<RawStat>): int {
    if es == [] then 0 else TotalBytes(es[..|es| - 1]) + es[|es| - 1].value
  }

  lemma {:induction false} ResponseSplits(es: seq<RawStat>)
    ensures TotalBytes(es) == ResponseBytes(es, true) + ResponseBytes(es, false)
  {
    hide ParseUserCounterName;
    if es != [] { ResponseSplits(es[..|es| - 1]); }
  }

  lemma {:induction false} NothingUnrecognised(es: seq<RawStat>)
    requires forall e :: e in es ==> ParseUserCounterName(e.name).Some?
    ensures ResponseBytes(es, false) == 0
  {
    hide ParseUserCounterName;
    if es != [] {
      assert es[|es| - 1] in es;
      NothingUnrecognised(es[..|es| - 1]);
    }
  }

  /** The bytes of the responses a cycle obtained; failed queries obtain none. */
  function ObtainedBytes(ts: seq<Target>): int {
    if ts == [] then 0 else
      var t := ts[|ts| - 1];
      ObtainedBytes(ts[..|ts| - 1]) + if t.response.Some? then TotalBytes(t.response.value) else 0
  }

  /** The part of them under names the collector does not recognise. */
  function UnrecognisedBytes(ts: seq<Target>): int {
    if ts == [] then 0 else
      var t := ts[|ts| - 1];
      UnrecognisedBytes(ts[..|ts| - 1]) + if t.response.Some? then ResponseBytes(t.response.value, false) else 0
  }

  /** What a cycle obtains is what it merges and what it does not recognise. */
  lemma {:induction false} ObtainedSplits(ts: seq<Target>)
    ensures ObtainedBytes(ts) == FlowBytes(Flows(ts)) + UnrecognisedBytes(ts)
  {
    hide FlowBytes, EntryFlows, TotalBytes, ResponseBytes;
    if ts == [] {
      NoFlowNoBytes([]);
    } else {
      var front, t := ts[..|ts| - 1], ts[|ts| - 1];
      ObtainedSplits(front);
      FlowBytesConcat(Flows(front), TargetFlows(t));
      if t.response.Some? {
        RecognisedBytesAreMerged(t.nodeName, t.response.value);
        ResponseSplits(t.response.value);
      } else {
        NoFlowNoBytes(TargetFlows(t));
      }
    }
  }

  ghost predicate AllRecognised(ts: seq<Target>) {
    forall t, e :: t in ts && t.response.Some? && e in t.response.value ==> ParseUserCounterName(e.name).Some?
  }

  lemma {:induction false} AllRecognisedLosesNothing(ts: seq<Target>)
    requires AllRecognised(ts)
    ensures UnrecognisedBytes(ts) == 0
  {
    hide ParseUserCounterName, ResponseBytes;
    if ts != [] {
      var t := ts[|ts| - 1];
      assert t in ts && forall u :: u in ts[..|ts| - 1] ==> u in ts;
      AllRecognisedLosesNothing(ts[..|ts| - 1]);
      if t.response.Some? { NothingUnrecognised(t.response.value); }
    }
  }

  // ---------------------------------------------------------------- cycles and runs

  /** What a cycle meets: discovery, the query responses, and whether the sink accepts the batch. */
  datatype Cycle = Cycle(targets: Option<seq<Target>>, writeOk: bool, now: int)

  function Received(c: Cycle): seq<Flow> { if c.targets.Some? then Flows(c.targets.value) else [] }

  function TargetsOf(c: Cycle): seq<Target> { if c.targets.Some? then c.targets.value else [] }

  /** The bytes of all responses a run obtained. */
  function AllObtained(cs: seq<Cycle>): int {
    if cs == [] then 0 else AllObtained(cs[..|cs| - 1]) + ObtainedBytes(TargetsOf(cs[|cs| - 1]))
  }

  function AllUnrecognised(cs: seq<Cycle>): int {
    if cs == [] then 0 else AllUnrecognised(cs[..|cs| - 1]) + UnrecognisedBytes(TargetsOf(cs[|cs| - 1]))
  }

  /** Nothing is lost to unrecognised names in a run whose responses have none. */
  lemma {:induction false} RecognisedRunLosesNothing(cs: seq<Cycle>)
    requires forall c :: c in cs ==> AllRecognised(TargetsOf(c))
    ensures AllUnrecognised(cs) == 0
  {
    hide AllRecognised, UnrecognisedBytes;
    if cs != [] {
      var c := cs[|cs| - 1];
      assert c in cs && forall d :: d in cs[..|cs| - 1] ==> d in cs;
      RecognisedRunLosesNothing(cs[..|cs| - 1]);
      AllRecognisedLosesNothing(TargetsOf(c));
    }
  }

  function BytesOf(batches: seq<seq<Record>>): int {
    if batches == [] then 0 else BytesOf(batches[..|batches| - 1]) + BatchBytes(batches[|batches| - 1])
  }

  lemma BytesSnoc(batches: seq<seq<Record>>, b: seq<Record>)
    ensures BytesOf(batches + [b]) == BytesOf(batches) + BatchBytes(b)
  {
    assert (batches + [b])[..|batches|] == batches;
  }

  /** A batch a cycle may write: its merged records, each once. */
  ghost predicate IsBatch(batch: seq<Record>, c: Cycle) {
    exists order :: Lists(order, MergeAll(Received(c), c.now)) && batch == BatchOf(order, MergeAll(Received(c), c.now))
  }

  lemma NothingMergedIffNone(fs: seq<Flow>, now: int, order: seq<string>)
    requires Lists(order, MergeAll(fs, now))
    ensures order == [] <==> fs == []
  {
    HasMember(order);
    if fs != [] {
      assert FlowKey(fs[|fs| - 1]) in MergeAll(fs, now);
    }
  }

  /** The batch joins the written ones, or the failed ones. */
  ghost predicate Sinks(c: Cycle, batch: seq<Record>, w: seq<seq<Record>>, f: seq<seq<Record>>, w': seq<seq<Record>>, f': seq<seq<Record>>) {
    if c.writeOk then w' == w + [batch] && f' == f else w' == w && f' == f + [batch]
  }

  lemma NoFlowNoBytes(fs: seq<Flow>)
    ensures fs == [] ==> FlowBytes(fs) == 0
  {}

  lemma CycleBatchBytes(c: Cycle, batch: seq<Record>)
    requires IsBatch(batch, c) && Fits(Received(c))
    ensures BatchBytes(batch) == FlowBytes(Received(c))
  {
    hide Received, MergeAll, Fits, BatchBytes, FlowBytes;
    var order :| Lists(order, MergeAll(Received(c), c.now)) && batch == BatchOf(order, MergeAll(Received(c), c.now));
    BatchConservesBytes(Received(c), c.now, order);
  }

  lemma CycleSplits(c: Cycle)
    ensures ObtainedBytes(TargetsOf(c)) == FlowBytes(Received(c)) + UnrecognisedBytes(TargetsOf(c))
  {
    hide ObtainedBytes, UnrecognisedBytes, FlowBytes;
    ObtainedSplits(TargetsOf(c));
    assert Flows(TargetsOf(c)) == Received(c);
  }

  /** What a cycle obtains is what it adds to the written and failed batches, and what it does not recognise. */
  lemma CycleConserves(c: Cycle, w: seq<seq<Record>>, f: seq<seq<Record>>, w': seq<seq<Record>>, f': seq<seq<Record>>)
    requires if Received(c) == [] then w' == w && f' == f else exists batch :: IsBatch(batch, c) && Sinks(c, batch, w, f, w', f')
    ensures Fits(Received(c)) ==>
              ObtainedBytes(TargetsOf(c)) == BytesOf(w') + BytesOf(f') - BytesOf(w) - BytesOf(f) + UnrecognisedBytes(TargetsOf(c))
  {
    hide ObtainedBytes, UnrecognisedBytes, TargetsOf, IsBatch, Received, Fits, BytesOf, BatchBytes, FlowBytes;
    CycleSplits(c);
    if Received(c) == [] {
      NoFlowNoBytes(Received(c));
    } else if Fits(Received(c)) {
      var batch :| IsBatch(batch, c) && Sinks(c, batch, w, f, w', f');
      CycleBatchBytes(c, batch);
      BytesSnoc(w, batch);
      BytesSnoc(f, batch);
    }
  }

  class Collector {
    var inPoll: bool
    var written: seq<seq<Record>>
    var failed: seq<seq<Record>>

    constructor ()
      ensures !inPoll && written == [] && failed == []
    {
      inPoll, written, failed := false, [], [];
    }

    ghost function Accounted(): int reads this { BytesOf(written) + BytesOf(failed) }

    /** A cycle entered while another is under way does nothing, and one that merges no counter writes nothing;
        otherwise its one batch, holding the merged records, is written or lost. */
    method PollCycle(c: Cycle)
      modifies this
      ensures inPoll == old(inPoll)
      ensures old(inPoll) || Received(c) == [] ==> written == old(written) && failed == old(failed)
      ensures !old(inPoll) && Received(c) != [] ==>
                exists batch :: IsBatch(batch, c) && Sinks(c, batch, old(written), old(failed), written, failed)
    {
      if inPoll {
        return;
      }
      inPoll := true;
      if c.targets.Some? && |c.targets.value| > 0 {
        var records := CollectRecords(c.targets.value, c.now);
        var batch;
        ghost var order;
        batch, order := BuildBatch(records);
        NothingMergedIffNone(Received(c), c.now, order);
        if |batch| > 0 {
          assert IsBatch(batch, c);
          if c.writeOk {
            written := written + [batch];
          } else {
            failed := failed + [batch];
          }
          assert Sinks(c, batch, old(written), old(failed), written, failed);
        }
      }
      inPoll := false;
    }

    /** Over every run, the bytes of the responses obtained equal the bytes written, the bytes in batches whose write
        failed, and the bytes under unrecognised names. */
    method Run(cs: seq<Cycle>)
      requires !inPoll
      modifies this
      ensures !inPoll
      ensures (forall c :: c in cs ==> Fits(Received(c))) ==>
                AllObtained(cs) == BytesOf(written) + BytesOf(failed) - old(BytesOf(written) + BytesOf(failed)) + AllUnrecognised(cs)
    {
      hide Received, Fits, BytesOf, IsBatch, Sinks, ObtainedBytes, UnrecognisedBytes;
      for i := 0 to |cs|
        invariant !inPoll
        invariant (forall c :: c in cs ==> Fits(Received(c))) ==>
                    AllObtained(cs[..i]) == Accounted() - old(Accounted()) + AllUnrecognised(cs[..i])
      {
        assert cs[..i + 1][..i] == cs[..i];
        ghost var w, f := written, failed;
        PollCycle(cs[i]);
        CycleConserves(cs[i], w, f, written, failed);
      }
      assert cs[..|cs|] == cs;
    }
  }

  // ---------------------------------------------------------------- records, off the responses

  /** A counter of one of the responses: its name parses to the user, node and direction, and its value is not zero. */
  ghost predicate Reported(ts: seq<Target>, f: Flow) {
    exists t, e :: t in ts && t.response.Some? && e in t.response.value && t.nodeName == f.inbound
                   && ParseUserCounterName(e.name) == Some(f.counter) && e.value == f.value && f.value != 0
  }

  lemma {:induction false} EntryFlowsAre(inbound: string, es: seq<RawStat>, f: Flow)
    ensures f in EntryFlows(inbound, es) <==>
            f.inbound == inbound && f.value != 0 && exists e :: e in es && ParseUserCounterName(e.name) == Some(f.counter) && e.value == f.value
  {
    if es != [] {
      assert es == es[..|es| - 1] + [es[|es| - 1]];
      hide ParseUserCounterName;
      EntryFlowsAre(inbound, es[..|es| - 1], f);
    }
  }

  /** What a cycle merges is exactly what the responses it obtained report. */
  lemma {:induction false} FlowsAreReported(ts: seq<Target>, f: Flow)
    ensures f in Flows(ts) <==> Reported(ts, f)
  {
    if ts != [] {
      var front, t := ts[..|ts| - 1], ts[|ts| - 1];
      assert ts == front + [t] && t in ts;
      hide EntryFlows, ParseUserCounterName;
      FlowsAreReported(front, f);
      if t.response.Some? { EntryFlowsAre(t.nodeName, t.response.value, f); }
    }
  }
}
