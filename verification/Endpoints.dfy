/** Entry endpoints: printed into a node's status by the controller, parsed back by the API server. */
module Endpoints {

  import opened Resources
  import opened Engine

  // ---------------------------------------------------------------- decimal integers

  const MAX_INT64 := 0x7fff_ffff_ffff_ffff

  predicate IsDigit(c: char) { '0' <= c <= '9' }

  function Digits(n: nat): (s: string)
    ensures s != [] && forall c :: c in s ==> IsDigit(c)
  {
    var last := [(48 + n % 10) as char];
    if n < 10 then last else Digits(n / 10) + last
  }

  function PrintInt(i: int): string { if i < 0 then "-" + Digits(-i) else Digits(i) }

  predicate AllDigits(s: string) { forall c :: c in s ==> IsDigit(c) }

  function ParseDigits(s: string): nat
    requires AllDigits(s)
  {
    if s == [] then 0 else
      assert IsDigit(s[|s| - 1]);
      ParseDigits(s[..|s| - 1]) * 10 + (s[|s| - 1] as int - 48)
  }

  /** strconv.Atoi on a 64-bit platform: an optional sign, then digits only, in range. */
  function Atoi(s: string): Option<int> {
    var signed := s != [] && (s[0] == '-' || s[0] == '+');
    var body := if signed then s[1..] else s;
    if body == [] || !AllDigits(body) then None else
      var v: int := if s[0] == '-' then -(ParseDigits(body) as int) else ParseDigits(body);
      if -MAX_INT64 - 1 <= v <= MAX_INT64 then Some(v) else None
  }

  lemma {:induction false} ParseDigitsInverts(n: nat)
    ensures ParseDigits(Digits(n)) == n
  {
    var last := [(48 + n % 10) as char];
    if n >= 10 {
      ParseDigitsInverts(n / 10);
      assert (Digits(n / 10) + last)[..|Digits(n / 10)|] == Digits(n / 10);
    }
  }

  lemma AtoiInverts(i: int)
    requires -MAX_INT64 - 1 <= i <= MAX_INT64
    ensures Atoi(PrintInt(i)) == Some(i)
  {
    if i < 0 {
      ParseDigitsInverts(-i);
      assert PrintInt(i)[1..] == Digits(-i);
    } else {
      ParseDigitsInverts(i);
      assert PrintInt(i)[0] in PrintInt(i);
    }
  }

  lemma AtoiRejectsColon(s: string)
    requires ':' in s
    ensures Atoi(s) == None
  {
    assert s == [s[0]] + s[1..];
    if s[0] == '-' || s[0] == '+' {
      assert ':' in s[1..];
    }
  }

  // ---------------------------------------------------------------- splitting at colons

  /** The index of the first colon, or the length when there is none. */
  function Colon(s: string): (i: nat)
    ensures i <= |s| && ':' !in s[..i] && (i < |s| ==> s[i] == ':')
  {
    if s == [] then 0 else if s[0] == ':' then 0 else
      assert s[..1 + Colon(s[1..])] == [s[0]] + s[1..][..Colon(s[1..])];
      1 + Colon(s[1..])
  }

  /** strings.SplitN(s, ":", n). */
  function SplitN(s: string, n: nat): seq<string> {
    var i := Colon(s);
    if n <= 1 || i == |s| then [s] else [s[..i]] + SplitN(s[i + 1..], n - 1)
  }

  lemma {:induction false} ColonUnique(s: string, i: nat)
    requires i < |s| && s[i] == ':' && ':' !in s[..i]
    ensures Colon(s) == i
  {
    if i > 0 {
      assert s[0] in s[..i];
      assert s[..i] == [s[0]] + s[1..][..i - 1];
      ColonUnique(s[1..], i - 1);
    }
  }

  lemma {:induction false} ColonInside(a: string, b: string)
    requires ':' in a
    ensures Colon(a + b) < |a|
  {
    if a[0] != ':' {
      assert a == [a[0]] + a[1..];
      ColonInside(a[1..], b);
      assert (a + b)[1..] == a[1..] + b;
    }
  }

  lemma SplitAtColon(a: string, b: string, n: nat)
    requires ':' !in a && n > 1
    ensures SplitN(a + ":" + b, n) == [a] + SplitN(b, n - 1)
  {
    var s := a + ":" + b;
    assert s[..|a|] == a && s[|a|] == ':' && s[|a| + 1..] == b;
    ColonUnique(s, |a|);
  }

  // ---------------------------------------------------------------- printing and parsing endpoints

  function Endpoint(p: ProtocolConfig, address: string): string {
    p.protocol + ":" + address + ":" + PrintInt(p.port)
  }

  function EndpointsOf(ps: seq<ProtocolConfig>, address: string): (r: seq<string>)
    ensures |r| == |ps| && forall i :: 0 <= i < |ps| ==> r[i] == Endpoint(ps[i], address)
  {
    seq(|ps|, i requires 0 <= i < |ps| => Endpoint(ps[i], address))
  }

  method PrintEndpoints(ps: seq<ProtocolConfig>, address: string) returns (r: seq<string>)
    ensures r == EndpointsOf(ps, address)
  {
    r := [];
    for i := 0 to |ps|
      invariant |r| == i && forall j :: 0 <= j < i ==> r[j] == Endpoint(ps[j], address)
    {
      r := r + [Endpoint(ps[i], address)];
    }
  }

  datatype Entry = Entry(address: string, port: int)

  /** One endpoint, read for a protocol: three colon-separated parts, the last a number. */
  function ParseEndpoint(ep: string, protocol: string): Option<Entry> {
    var parts := SplitN(ep, 3);
    if |parts| != 3 || parts[0] != protocol then None else
      match Atoi(parts[2])
      case Some(p) => Some(Entry(parts[1], p))
      case None => None
  }

  function FindEntryEndpoint(endpoints: seq<string>, protocol: string): Option<Entry> {
    if endpoints == [] then None
    else if ParseEndpoint(endpoints[0], protocol).Some? then ParseEndpoint(endpoints[0], protocol)
    else FindEntryEndpoint(endpoints[1..], protocol)
  }

  predicate Supports(ps: seq<ProtocolConfig>, protocol: string) {
    exists p :: p in ps && p.protocol == protocol
  }

  /** Protocol names come from a fixed list without colons, ports are 32-bit integers. */
  ghost predicate PortsWellFormed(ps: seq<ProtocolConfig>) {
    forall p :: p in ps ==> ':' !in p.protocol && -0x8000_0000 <= p.port < 0x8000_0000
  }

  lemma SplitRest(address: string, port: string)
    ensures ':' !in address ==> SplitN(address + ":" + port, 2) == [address, port]
    ensures ':' in address ==> var parts := SplitN(address + ":" + port, 2); |parts| == 2 && ':' in parts[1]
  {
    var rest := address + ":" + port;
    if ':' !in address {
      SplitAtColon(address, port, 2);
    } else {
      assert rest == address + (":" + port);
      ColonInside(address, ":" + port);
      var i := Colon(rest);
      assert rest[i + 1..][|address| - i - 1] == ':';
    }
  }

  lemma SplitPrinted(p: ProtocolConfig, address: string)
    requires ':' !in p.protocol
    ensures ':' !in address ==> SplitN(Endpoint(p, address), 3) == [p.protocol, address, PrintInt(p.port)]
    ensures ':' in address ==> var parts := SplitN(Endpoint(p, address), 3); |parts| == 3 && ':' in parts[2]
  {
    hide PrintInt, SplitN;
    var port := PrintInt(p.port);
    var rest := address + ":" + port;
    assert Endpoint(p, address) == p.protocol + ":" + rest;
    SplitAtColon(p.protocol, rest, 3);
    SplitRest(address, port);
  }

  lemma ParsePrintedEndpoint(p: ProtocolConfig, address: string, protocol: string)
    requires ':' !in p.protocol && -0x8000_0000 <= p.port < 0x8000_0000
    ensures ParseEndpoint(Endpoint(p, address), protocol) ==
            if ':' !in address && p.protocol == protocol then Some(Entry(address, p.port)) else None
  {
    hide SplitN, Endpoint, PrintInt, Atoi;
    SplitPrinted(p, address);
    if ':' in address {
      AtoiRejectsColon(SplitN(Endpoint(p, address), 3)[2]);
    } else {
      AtoiInverts(p.port);
    }
  }

  /** Parsing what was printed returns the node's address and the port of the protocol, and nothing
      when the protocol is not served or the address itself contains a colon. */
  lemma {:induction false} EndpointRoundTrip(ps: seq<ProtocolConfig>, address: string, protocol: string)
    requires PortsWellFormed(ps)
    ensures FindEntryEndpoint(EndpointsOf(ps, address), protocol) ==
            if ':' !in address && Supports(ps, protocol) then Some(Entry(address, ProtocolPort(ps, protocol))) else None
  {
    hide ParseEndpoint, Endpoint;
    if ps != [] {
      ParsePrintedEndpoint(ps[0], address, protocol);
      EndpointRoundTrip(ps[1..], address, protocol);
      assert ps == [ps[0]] + ps[1..];
      assert EndpointsOf(ps, address)[1..] == EndpointsOf(ps[1..], address);
      assert Supports(ps, protocol) <==> ps[0].protocol == protocol || Supports(ps[1..], protocol);
    }
  }
}
