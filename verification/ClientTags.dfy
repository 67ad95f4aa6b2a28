/** Exactly when the tags of a client config are unique. */
module ClientTags {

  import opened Ordering
  import opened Resources
  import opened Engine
  import opened Routing
  import opened Client
  import opened Advertised

  ghost predicate DistinctInbounds(input: ClientInput) { NoDup(input.inboundNodes) && DistinctNodes(input.inboundNodes) }

  ghost predicate WellNamed(input: ClientInput) { Keyed(input) && HashFreeNames(input) && DistinctInbounds(input) }

  function TagList(os: seq<ClientOutbound>): (r: seq<string>)
    ensures |r| == |os| && forall i :: 0 <= i < |os| ==> r[i] == os[i].tag
  {
    seq(|os|, i requires 0 <= i < |os| => os[i].tag)
  }

  lemma NoDupConcat<T>(a: seq<T>, b: seq<T>)
    ensures NoDup(a + b) <==> NoDup(a) && NoDup(b) && forall x :: !(x in a && x in b)
  {
    var s := a + b;
    if NoDup(s) {
      forall i, j | 0 <= i < j < |a| ensures a[i] != a[j] { assert s[i] == a[i] && s[j] == a[j]; }
      forall i, j | 0 <= i < j < |b| ensures b[i] != b[j] { assert s[|a| + i] == b[i] && s[|a| + j] == b[j]; }
      forall x | x in a ensures x !in b {
        var i :| 0 <= i < |a| && a[i] == x;
        forall j | 0 <= j < |b| ensures b[j] != x { assert s[i] == x && s[|a| + j] == b[j]; }
      }
    }
    if NoDup(a) && NoDup(b) && forall x :: !(x in a && x in b) {
      forall i, j | 0 <= i < j < |s| ensures s[i] != s[j] {
        if i < |a| <= j { assert s[i] in a && s[j] in b; }
      }
    }
  }

  // ---------------------------------------------------------------- proxy tags are distinct

  lemma RefsNoDup(input: ClientInput, name: string)
    requires Keyed(input)
    ensures NoDup(RefsByName(input, name))
  {
    var refs := RefsByName(input, name);
    if refs != [] {
      var n := FindInbound(input.inboundNodes, name).value;
      var names := SortedSet(ReachableNames(input, n));
      SortedSetAscending(ReachableNames(input, n));
      forall i, j | 0 <= i < j < |refs| ensures refs[i] != refs[j] {
        assert names[i] in names && names[j] in names;
        RefForName(input, n, names[i]);
        RefForName(input, n, names[j]);
      }
    }
  }

  lemma {:induction false} ShownNoDup(input: ClientInput, ps: seq<Path>)
    requires NoDup(ps)
    ensures NoDup(ShownPaths(input, ps))
  {
    if ps != [] {
      ShownNoDup(input, ps[..|ps| - 1]);
      ShownFacts(input, ps[..|ps| - 1]);
    }
  }

  lemma {:induction false} PathsNoDup(input: ClientInput, nodes: seq<Node>)
    requires Keyed(input) && NoDup(nodes)
    ensures NoDup(Paths(input, nodes))
  {
    if nodes != [] {
      var front, n := nodes[..|nodes| - 1], nodes[|nodes| - 1];
      PathsNoDup(input, front);
      RefsNoDup(input, n.name);
      ShownNoDup(input, PathsFrom(input, n));
      forall p ensures !(p in Paths(input, front) && p in ShownPaths(input, PathsFrom(input, n))) {
        PathFacts(input, front, p);
        PathsFromFacts(input, n, p);
      }
      NoDupConcat(Paths(input, front), ShownPaths(input, PathsFrom(input, n)));
    }
  }

  lemma TagOfInjective(input: ClientInput, p: Path, q: Path)
    requires WellNamed(input) && p in Paths(input, input.inboundNodes) && q in Paths(input, input.inboundNodes)
    requires TagOf(p) == TagOf(q)
    ensures p == q
  {
    PathNames(input, p);
    PathNames(input, q);
    PathTagInjective(p.inbound.name, p.ref.name, q.inbound.name, q.ref.name);
    PathFacts(input, input.inboundNodes, p);
    PathFacts(input, input.inboundNodes, q);
    RefsFacts(input, p.inbound.name, p.ref);
    RefsFacts(input, q.inbound.name, q.ref);
  }

  /** Each proxy is emitted once, under a tag no other proxy has. */
  lemma ProxyTagsDistinct(input: ClientInput)
    requires WellNamed(input)
    ensures NoDup(TagList(Proxies(input, Paths(input, input.inboundNodes))))
  {
    var ps := Paths(input, input.inboundNodes);
    PathsNoDup(input, input.inboundNodes);
    var tags := TagList(Proxies(input, ps));
    forall i, j | 0 <= i < j < |tags| ensures tags[i] != tags[j] {
      assert ps[i] in ps && ps[j] in ps && ps[i] != ps[j];
      if TagOf(ps[i]) == TagOf(ps[j]) { TagOfInjective(input, ps[i], ps[j]); }
    }
  }

  // ---------------------------------------------------------------- collisions with selectors and direct

  /** The inbound node offers the target: it can be entered, it reaches the target, and the target is in some group. */
  ghost predicate Offers(input: ClientInput, i: Node, n: string) {
    i in input.inboundNodes && EntryOf(input, i).Some? && RefFor(input, i, n).Some? && Shown(input, RefFor(input, i, n).value)
  }

  /** Some inbound node that can be entered reaches a target kept in the group. */
  ghost predicate Fills(input: ClientInput, g: string) {
    exists i, n :: Offers(input, i, n) && Kept(input, RefFor(input, i, n).value, g)
  }

  /** An inbound node offers itself under a name that the config also uses: direct, or a group that is not empty. */
  ghost predicate NameTaken(input: ClientInput, name: string) {
    (name == DIRECT || (name in GROUPS && Fills(input, name))) && exists i :: Offers(input, i, name) && i.name == name
  }

  lemma FoundItself(input: ClientInput, i: Node)
    requires DistinctInbounds(input) && i in input.inboundNodes
    ensures FindInbound(input.inboundNodes, i.name) == Some(i)
  {}

  lemma ReachableIsListed(input: ClientInput, inbound: Node, name: string)
    requires Keyed(input) && FindInbound(input.inboundNodes, inbound.name) == Some(inbound) && RefFor(input, inbound, name).Some?
    ensures RefFor(input, inbound, name).value in RefsByName(input, inbound.name)
  {
    var names := SortedSet(ReachableNames(input, inbound));
    ReachableByName(input, inbound, name);
    assert name in names;
    var i :| 0 <= i < |names| && names[i] == name;
    assert Refs(input, inbound)[i] == RefFor(input, inbound, name).value;
  }

  /** A path is advertised exactly where one is offered. */
  lemma PathsAreOffers(input: ClientInput, p: Path)
    requires WellNamed(input)
    ensures p in Paths(input, input.inboundNodes) <==>
            Offers(input, p.inbound, p.ref.name) && EntryOf(input, p.inbound) == Some(p.entry) && RefFor(input, p.inbound, p.ref.name) == Some(p.ref)
  {
    hide Paths, EntryOf, RefFor, RefsByName, Shown, Keyed, HashFreeNames;
    PathFacts(input, input.inboundNodes, p);
    if p.inbound in input.inboundNodes {
      FoundItself(input, p.inbound);
      if p.ref in RefsByName(input, p.inbound.name) { RefsFacts(input, p.inbound.name, p.ref); }
      if RefFor(input, p.inbound, p.ref.name).Some? { ReachableIsListed(input, p.inbound, p.ref.name); }
    }
  }

  lemma SelfPathsAreOffers(input: ClientInput, name: string)
    requires WellNamed(input)
    ensures (exists p :: p in Paths(input, input.inboundNodes) && p.ref.name == name && p.inbound.name == name)
            <==> exists i :: Offers(input, i, name) && i.name == name
  {
    hide Paths;
    var ps := Paths(input, input.inboundNodes);
    if p :| p in ps && p.ref.name == name && p.inbound.name == name { PathsAreOffers(input, p); }
    if i :| Offers(input, i, name) && i.name == name {
      OfferedPath(input, i, name);
    }
  }

  lemma OfferedPath(input: ClientInput, i: Node, n: string)
    requires WellNamed(input) && Offers(input, i, n)
    ensures var p := Path(i, RefFor(input, i, n).value, EntryOf(input, i).value);
            p in Paths(input, input.inboundNodes) && p.ref.name == n
  {
    RefForName(input, i, n);
    PathsAreOffers(input, Path(i, RefFor(input, i, n).value, EntryOf(input, i).value));
  }

  lemma MembersAreOffers(input: ClientInput, g: string)
    requires WellNamed(input)
    ensures Members(input, Paths(input, input.inboundNodes), g) != {} <==> Fills(input, g)
  {
    hide Paths;
    var ps := Paths(input, input.inboundNodes);
    if Members(input, ps, g) != {} {
      var p :| p in ps && Kept(input, p.ref, g);
      PathsAreOffers(input, p);
    }
    if i, n :| Offers(input, i, n) && Kept(input, RefFor(input, i, n).value, g) {
      OfferedPath(input, i, n);
      var p := Path(i, RefFor(input, i, n).value, EntryOf(input, i).value);
      assert TagOf(p) in Members(input, ps, g);
    }
  }

  lemma TagIsSelfPath(input: ClientInput, name: string)
    requires WellNamed(input) && HashFree(name)
    ensures name in TagList(Proxies(input, Paths(input, input.inboundNodes))) <==>
            exists p :: p in Paths(input, input.inboundNodes) && p.ref.name == name && p.inbound.name == name
  {
    var ps := Paths(input, input.inboundNodes);
    var tags := TagList(Proxies(input, ps));
    if name in tags {
      var i :| 0 <= i < |ps| && tags[i] == name;
      assert ps[i] in ps;
      PathNames(input, ps[i]);
      PathTagHash(ps[i].inbound.name, ps[i].ref.name);
    }
    if p :| p in ps && p.ref.name == name && p.inbound.name == name {
      var i :| 0 <= i < |ps| && ps[i] == p;
      assert tags[i] == name;
    }
  }

  lemma ReservedHashFree(name: string)
    requires name == DIRECT || name in GROUPS
    ensures HashFree(name)
  {}

  lemma SelectorTagList(input: ClientInput, ps: seq<Path>)
    ensures TagList(Selectors(input, ps)) == SelectorTags(input, ps) && NoDup(SelectorTags(input, ps))
    ensures DIRECT !in SelectorTags(input, ps)
  {
    SortedSetAscending(set g | g in GROUPS && Members(input, ps, g) != {});
  }

  lemma TagListSplit(input: ClientInput)
    ensures var ps := Paths(input, input.inboundNodes);
            TagList(OutboundsOf(input)) == TagList(Proxies(input, ps)) + (SelectorTags(input, ps) + [DIRECT])
  {
    SelectorTagList(input, Paths(input, input.inboundNodes));
  }

  /** All tags are unique unless an inbound node offers itself under the name of direct or of a filled group. */
  lemma ClientTagsUnique(input: ClientInput)
    requires WellNamed(input)
    ensures NoDup(TagList(OutboundsOf(input))) <==> forall name :: !NameTaken(input, name)
  {
    hide Paths, Members, OutboundsOf, Proxies, TagList, WellNamed, Offers, Fills, HashFree;
    var ps := Paths(input, input.inboundNodes);
    var a, b := TagList(Proxies(input, ps)), SelectorTags(input, ps) + [DIRECT];
    TagListSplit(input);
    ProxyTagsDistinct(input);
    SelectorTagList(input, ps);
    NoDupConcat(SelectorTags(input, ps), [DIRECT]);
    NoDupConcat(a, b);
    forall name ensures (name in a && name in b) <==> NameTaken(input, name) {
      MembersAreOffers(input, name);
      SelectorNames(input, ps, name);
      if name in b || NameTaken(input, name) {
        ReservedHashFree(name);
        TagIsSelfPath(input, name);
        SelfPathsAreOffers(input, name);
      }
    }
  }

  lemma SelectorNames(input: ClientInput, ps: seq<Path>, name: string)
    ensures name in SelectorTags(input, ps) <==> name in GROUPS && Members(input, ps, name) != {}
  {}
}
