/**
  The JSON-like values the compiler and the policy builder produce: Python
  dicts (insertion-ordered, so a sequence of members), lists, strings,
  numbers and None.
*/
module Json {
  import opened Wrappers

  /** A number literal, kept opaque: its text is carried through unchanged. */
  datatype Number = Number(text: string)

  /** A token or leaf value: a Python `str` or a number. */
  datatype Scalar = Str(s: string) | Num(n: Number)

  datatype Json =
    | Null
    | Atom(a: Scalar)
    | Arr(items: seq<Json>)
    | Obj(members: seq<(string, Json)>)

  /** The one-member dict `{k: v}`. */
  function Single(k: string, v: Json): Json {
    Obj([(k, v)])
  }

  /** A JSON string. */
  function JStr(s: string): Json {
    Atom(Str(s))
  }

  /** A list of strings as a JSON list. */
  function StrList(ss: seq<string>): (j: Json)
    ensures j.Arr? && |j.items| == |ss|
    ensures forall i :: 0 <= i < |ss| ==> j.items[i] == JStr(ss[i])
  {
    Arr(seq(|ss|, i requires 0 <= i < |ss| => JStr(ss[i])))
  }

  /** The keys of a dict, in insertion order (empty for anything else). */
  function Keys(j: Json): (ks: seq<string>)
    ensures j.Obj? ==> |ks| == |j.members|
    ensures j.Obj? ==> forall i :: 0 <= i < |ks| ==> ks[i] == j.members[i].0
  {
    if j.Obj? then seq(|j.members|, i requires 0 <= i < |j.members| => j.members[i].0) else []
  }

  /** `d.get(k)` on a dict: the value of the first member whose key is k. */
  function Lookup(j: Json, k: string): (r: Option<Json>)
    ensures r.Some? <==> j.Obj? && k in Keys(j)
    decreases if j.Obj? then |j.members| else 0
  {
    if !j.Obj? || |j.members| == 0 then None
    else if j.members[0].0 == k then Some(j.members[0].1)
    else
      assert Keys(j) == [j.members[0].0] + Keys(Obj(j.members[1..]));
      Lookup(Obj(j.members[1..]), k)
  }

  lemma LookupHead(k: string, v: Json, rest: seq<(string, Json)>)
    ensures Lookup(Obj([(k, v)] + rest), k) == Some(v)
  {
  }

  lemma LookupTail(k0: string, v: Json, rest: seq<(string, Json)>, k: string)
    requires k0 != k
    ensures Lookup(Obj([(k0, v)] + rest), k) == Lookup(Obj(rest), k)
  {
    assert ([(k0, v)] + rest)[1..] == rest;
  }
}
