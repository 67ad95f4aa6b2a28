/** Traffic counter names: printed from virtual users, read back by two parsers. */
module Counters {

  import opened Resources
  import opened Engine
  import opened Routing

  const UPLINK := "uplink"
  const DOWNLINK := "downlink"

  datatype Counter = Counter(user: string, node: string, direction: string)

  // ---------------------------------------------------------------- splitting at ">>>"

  predicate SepAt(s: string, i: nat) { i + 3 <= |s| && s[i] == '>' && s[i + 1] == '>' && s[i + 2] == '>' }

  /** Where the first separator starts. */
  function Find(s: string, from: nat): (r: Option<nat>)
    requires from <= |s|
    ensures r.Some? ==> from <= r.value && SepAt(s, r.value)
    ensures r.Some? ==> forall j :: from <= j < r.value ==> !SepAt(s, j)
    ensures r.None? ==> forall j :: from <= j ==> !SepAt(s, j)
    decreases |s| - from
  {
    if SepAt(s, from) then Some(from) else if from == |s| then None else Find(s, from + 1)
  }

  /** strings.Split(s, ">>>"). */
  function Split(s: string): seq<string> {
    match Find(s, 0)
    case None => [s]
    case Some(i) => [s[..i]] + Split(s[i + 3..])
  }

  lemma SplitHead(a: string, b: string)
    requires '>' !in a
    ensures Split(a + ">>>" + b) == [a] + Split(b)
  {
    var s := a + ">>>" + b;
    assert SepAt(s, |a|);
    forall j | 0 <= j < |a| ensures !SepAt(s, j) { assert s[j] == a[j] && a[j] in a; }
    assert Find(s, 0) == Some(|a|);
    assert s[..|a|] == a && s[|a| + 3..] == b;
  }

  lemma SplitWhole(a: string)
    requires '>' !in a
    ensures Split(a) == [a]
  {
    forall j: nat ensures !SepAt(a, j) { if j + 3 <= |a| { assert a[j] in a; } }
  }

  // ---------------------------------------------------------------- positions of '#'

  function FirstHash(s: string): (i: nat)
    ensures i <= |s| && (forall j :: 0 <= j < i ==> s[j] != '#') && (i < |s| ==> s[i] == '#')
  {
    if s == "" || s[0] == '#' then 0 else 1 + FirstHash(s[1..])
  }

  function LastHash(s: string): (i: int)
    ensures -1 <= i < |s| && (forall j :: i < j < |s| ==> s[j] != '#') && (i >= 0 ==> s[i] == '#')
  {
    if s == "" then -1 else if s[|s| - 1] == '#' then |s| - 1 else LastHash(s[..|s| - 1])
  }

  // ---------------------------------------------------------------- the two parsers

  predicate IsDirection(d: string) { d == UPLINK || d == DOWNLINK }

  const PREFIX := "user>>>"

  /** The first '#' ends the user; without one there is no node. */
  function CutFirst(parts: seq<string>): Option<Counter> {
    if |parts| != 3 || parts[0] == "" || parts[1] != "traffic" || !IsDirection(parts[2]) then None else
      var v := parts[0];
      var i := FirstHash(v);
      Some(if i == |v| then Counter(v, "", parts[2]) else Counter(v[..i], v[i + 1..], parts[2]))
  }

  function ParseUserCounterName(name: string): Option<Counter> {
    if PREFIX <= name then CutFirst(Split(name[|PREFIX|..])) else None
  }

  /** The last '#' ends the user; user and node are nonempty. */
  function CutLast(parts: seq<string>): Option<Counter> {
    if |parts| != 4 || parts[0] != "user" || parts[2] != "traffic" then None else
      var v := parts[1];
      var i := LastHash(v);
      if i <= 0 || i == |v| - 1 || !IsDirection(parts[3]) then None else Some(Counter(v[..i], v[i + 1..], parts[3]))
  }

  function NormalizeCounterName(counter: string): Option<Counter> { CutLast(Split(counter)) }

  /** The counter sing-box keeps for a virtual user. */
  function CounterName(virtualUser: string, direction: string): string {
    "user" + ">>>" + (virtualUser + ">>>" + ("traffic" + ">>>" + direction))
  }

  // ---------------------------------------------------------------- round trip

  lemma PrefixOf(rest: string)
    ensures PREFIX <= "user" + ">>>" + rest && ("user" + ">>>" + rest)[|PREFIX|..] == rest
  {
    assert "user" + ">>>" == PREFIX;
  }

  lemma SplitTail(v: string, direction: string)
    requires '>' !in v && '>' !in direction
    ensures Split(v + ">>>" + ("traffic" + ">>>" + direction)) == [v, "traffic", direction]
  {
    SplitHead(v, "traffic" + ">>>" + direction);
    SplitHead("traffic", direction);
    SplitWhole(direction);
  }

  lemma SplitCounterName(v: string, direction: string)
    requires '>' !in v && '>' !in direction
    ensures PREFIX <= CounterName(v, direction)
    ensures Split(CounterName(v, direction)[|PREFIX|..]) == [v, "traffic", direction]
    ensures Split(CounterName(v, direction)) == ["user", v, "traffic", direction]
  {
    var rest := v + ">>>" + ("traffic" + ">>>" + direction);
    PrefixOf(rest);
    SplitTail(v, direction);
    SplitHead("user", rest);
  }

  lemma VirtualUserHashes(user: string, node: string)
    requires HashFree(user) && HashFree(node)
    ensures FirstHash(VirtualUser(user, node)) == |user| && LastHash(VirtualUser(user, node)) == |user|
    ensures VirtualUser(user, node)[..|user|] == user && VirtualUser(user, node)[|user| + 1..] == node
  {
    var v := VirtualUser(user, node);
    assert v[|user|] == '#';
    forall j | 0 <= j < |v| && j != |user| ensures v[j] != '#' {
      if j < |user| { assert v[j] == user[j]; } else { assert v[j] == node[j - |user| - 1]; }
    }
  }

  lemma DirectionPlain(direction: string)
    requires IsDirection(direction)
    ensures '>' !in direction
  {}

  lemma CutFirstOf(parts: seq<string>, v: string, direction: string)
    requires |parts| == 3 && parts[0] == v && parts[1] == "traffic" && parts[2] == direction
    requires v != "" && IsDirection(direction) && FirstHash(v) < |v|
    ensures CutFirst(parts) == Some(Counter(v[..FirstHash(v)], v[FirstHash(v) + 1..], direction))
  {
    hide IsDirection, FirstHash;
  }

  lemma CutLastOf(parts: seq<string>, v: string, direction: string)
    requires |parts| == 4 && parts[0] == "user" && parts[1] == v && parts[2] == "traffic" && parts[3] == direction
    requires IsDirection(direction) && 0 < LastHash(v) < |v| - 1
    ensures CutLast(parts) == Some(Counter(v[..LastHash(v)], v[LastHash(v) + 1..], direction))
  {
    hide IsDirection, LastHash;
  }

  /** What the two parsers cut of a printed name. */
  lemma ParsePrinted(v: string, direction: string)
    requires '>' !in v && '>' !in direction
    ensures ParseUserCounterName(CounterName(v, direction)) == CutFirst([v, "traffic", direction])
    ensures NormalizeCounterName(CounterName(v, direction)) == CutLast(["user", v, "traffic", direction])
  {
    hide Split, CutFirst, CutLast, CounterName;
    SplitCounterName(v, direction);
  }

  /** Both parsers recover exactly the user, node and direction a counter was printed from. */
  lemma CounterRoundTrip(user: string, node: string, direction: string)
    requires user != "" && node != "" && HashFree(user) && HashFree(node) && '>' !in user && '>' !in node && IsDirection(direction)
    ensures ParseUserCounterName(CounterName(VirtualUser(user, node), direction)) == Some(Counter(user, node, direction))
    ensures NormalizeCounterName(CounterName(VirtualUser(user, node), direction)) == Some(Counter(user, node, direction))
  {
    DirectionPlain(direction);
    hide ParseUserCounterName, NormalizeCounterName, CutFirst, CutLast, CounterName, FirstHash, LastHash, IsDirection;
    VirtualUserHashes(user, node);
    ParsePrinted(VirtualUser(user, node), direction);
    CutFirstOf([VirtualUser(user, node), "traffic", direction], VirtualUser(user, node), direction);
    CutLastOf(["user", VirtualUser(user, node), "traffic", direction], VirtualUser(user, node), direction);
  }

  // ---------------------------------------------------------------- the parsers on arbitrary names

  lemma SplitUserPrefix(s: string)
    ensures PREFIX <= s ==> Split(s) == ["user"] + Split(s[|PREFIX|..])
    ensures |Split(s)| >= 2 && Split(s)[0] == "user" ==> PREFIX <= s
  {
    if PREFIX <= s {
      assert s == "user" + ">>>" + s[|PREFIX|..];
      SplitHead("user", s[|PREFIX|..]);
    }
    if |Split(s)| >= 2 && Split(s)[0] == "user" {
      var i := Find(s, 0).value;
      assert s[..i] == "user";
      assert s[..7] == PREFIX;
    }
  }

  /** Where the stricter parser succeeds the other does too, with the same direction, and with the same user
      and node exactly when the virtual user has a single '#'. */
  lemma NormalizeImpliesParse(s: string)
    requires NormalizeCounterName(s).Some?
    ensures ParseUserCounterName(s).Some?
    ensures ParseUserCounterName(s).value.direction == NormalizeCounterName(s).value.direction
    ensures ParseUserCounterName(s) == NormalizeCounterName(s) <==> '#' !in Split(s)[1][FirstHash(Split(s)[1]) + 1..]
  {
    SplitUserPrefix(s);
    var v := Split(s)[1];
    assert Split(s)[1..] == Split(s[|PREFIX|..]);
    var i, j := FirstHash(v), LastHash(v);
    assert v[j] == '#' && i <= j;
    if i < j {
      assert v[i + 1..][j - i - 1] == '#';
      assert |v[..i]| != |v[..j]|;
    }
  }

  /** What the stricter parser turns away: virtual users whose last '#' leaves the user or the node empty, or that have none. */
  lemma ParseNotNormalize(s: string)
    requires ParseUserCounterName(s).Some?
    ensures var v := Split(s[|PREFIX|..])[0]; NormalizeCounterName(s).Some? <==> 0 < LastHash(v) < |v| - 1
  {
    SplitUserPrefix(s);
    assert Split(s)[1..] == Split(s[|PREFIX|..]);
  }

  // ---------------------------------------------------------------- which names are recognised

  /** No separator starts inside v when one follows it. */
  ghost predicate Unbroken(v: string) { forall j :: 0 <= j < |v| ==> !SepAt(v + ">>>", j) }

  lemma SplitUnbroken(v: string, rest: string)
    requires Unbroken(v)
    ensures Split(v + ">>>" + rest) == [v] + Split(rest)
  {
    var s := v + ">>>" + rest;
    assert forall j :: 0 <= j < |v| + 3 ==> s[j] == (v + ">>>")[j];
    assert SepAt(s, |v|);
    forall j | 0 <= j < |v| ensures !SepAt(s, j) { assert !SepAt(v + ">>>", j); }
    assert Find(s, 0) == Some(|v|);
    assert s[..|v|] == v && s[|v| + 3..] == rest;
  }

  lemma SplitCut(s: string)
    requires |Split(s)| > 1
    ensures Unbroken(Split(s)[0]) && exists rest :: s == Split(s)[0] + ">>>" + rest && Split(rest) == Split(s)[1..]
  {
    var i := Find(s, 0).value;
    var v, rest := s[..i], s[i + 3..];
    assert s == v + ">>>" + rest;
    forall j | 0 <= j < |v| ensures !SepAt(v + ">>>", j) {
      assert forall k :: 0 <= k < |v| + 3 ==> s[k] == (v + ">>>")[k];
      assert !SepAt(s, j);
    }
  }

  lemma SplitOnce(s: string)
    requires |Split(s)| == 1
    ensures Split(s) == [s]
  {}

  /** A virtual user as recorded: the part up to its first '#', and the rest. */
  ghost predicate Names(v: string, c: Counter) {
    '#' !in c.user && (v == c.user + "#" + c.node || (v == c.user && c.node == ""))
  }

  lemma HashEndsUser(user: string, node: string)
    requires '#' !in user
    ensures var v := user + "#" + node; FirstHash(v) == |user| && v[..|user|] == user && v[|user| + 1..] == node
  {
    var v := user + "#" + node;
    assert v[|user|] == '#';
    assert forall j :: 0 <= j < |user| ==> v[j] == user[j];
    hide FirstHash;
  }

  lemma NamesIff(v: string, c: Counter)
    ensures Names(v, c) <==> var i := FirstHash(v); c.user == v[..i] && c.node == if i == |v| then "" else v[i + 1..]
  {
    hide FirstHash;
    var i := FirstHash(v);
    if i < |v| { assert v == v[..i] + "#" + v[i + 1..]; } else { assert v[..i] == v; }
    if Names(v, c) && '#' in v { HashEndsUser(c.user, c.node); }
  }

  lemma SplitThree(rest: string, v: string, direction: string)
    requires direction == UPLINK || direction == DOWNLINK
    ensures Split(rest) == [v, "traffic", direction] <==> Unbroken(v) && rest == v + ">>>" + ("traffic" + ">>>" + direction)
  {
    var tail := "traffic" + ">>>" + direction;
    DirectionPlain(direction);
    SplitHead("traffic", direction);
    SplitWhole(direction);
    assert Split(tail) == ["traffic", direction];
    hide Split;
    if Unbroken(v) && rest == v + ">>>" + tail { SplitUnbroken(v, tail); }
    if Split(rest) == [v, "traffic", direction] {
      SplitCut(rest);
      var more :| rest == v + ">>>" + more && Split(more) == ["traffic", direction];
      SplitCut(more);
      var last :| more == "traffic" + ">>>" + last && Split(last) == [direction];
      SplitOnce(last);
    }
  }

  ghost predicate Records(name: string, c: Counter, v: string) {
    && v != "" && Unbroken(v) && Names(v, c) && (c.direction == "uplink" || c.direction == "downlink")
    && name == "user" + ">>>" + (v + ">>>" + ("traffic" + ">>>" + c.direction))
  }

  lemma RecordedParses(name: string, c: Counter, v: string)
    requires Records(name, c, v)
    ensures ParseUserCounterName(name) == Some(c)
  {
    var rest := v + ">>>" + ("traffic" + ">>>" + c.direction);
    hide Split, Unbroken, FirstHash, Names;
    PrefixOf(rest);
    SplitThree(rest, v, c.direction);
    NamesIff(v, c);
    assert FirstHash(v) == |v| ==> v[..FirstHash(v)] == v;
  }

  lemma ParsedIsRecorded(name: string, c: Counter)
    requires ParseUserCounterName(name) == Some(c)
    ensures exists v :: Records(name, c, v)
  {
    var rest := name[|PREFIX|..];
    hide Split, Unbroken, FirstHash, Names;
    var v := Split(rest)[0];
    CutIsNamed(Split(rest), c);
    SplitThree(rest, v, c.direction);
    assert name == PREFIX + rest && "user" + ">>>" == PREFIX;
    assert Records(name, c, v);
  }

  lemma CutIsNamed(parts: seq<string>, c: Counter)
    requires CutFirst(parts) == Some(c)
    ensures |parts| == 3 && parts == [parts[0], "traffic", c.direction] && parts[0] != "" && IsDirection(c.direction) && Names(parts[0], c)
  {
    NamesIff(parts[0], c);
    hide Names, FirstHash;
    assert FirstHash(parts[0]) == |parts[0]| ==> parts[0][..FirstHash(parts[0])] == parts[0];
  }

  /** Exactly the names that are recognised, and as what. */
  lemma ParseIff(name: string, c: Counter)
    ensures ParseUserCounterName(name) == Some(c) <==> exists v :: Records(name, c, v)
  {
    hide ParseUserCounterName, Records;
    if v :| Records(name, c, v) { RecordedParses(name, c, v); }
    if ParseUserCounterName(name) == Some(c) { ParsedIsRecorded(name, c); }
  }
}
