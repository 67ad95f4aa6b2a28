/** Decoded JSON, as the template code sees it: a missing key reads as null. */
module Json {

  datatype Json = Null | Bool(b: bool) | Num(n: int) | Str(s: string) | Arr(items: seq<Json>) | Obj(fields: Object)

  type Object = map<string, Json>

  function Get(o: Object, k: string): Json { if k in o then o[k] else Null }

  function Items(j: Json): seq<Json> { if j.Arr? then j.items else [] }

  function Fields(j: Json): Object { if j.Obj? then j.fields else map[] }

  predicate HasTag(j: Json, tag: string) { j.Obj? && Get(j.fields, "tag") == Str(tag) }

  function Strings(ss: seq<string>): (r: seq<Json>)
    ensures |r| == |ss| && forall i :: 0 <= i < |ss| ==> r[i] == Str(ss[i])
  {
    seq(|ss|, i requires 0 <= i < |ss| => Str(ss[i]))
  }
}
