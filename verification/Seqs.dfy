/** Sequence vocabulary shared by the models of the stores. */
module Seqs {
  datatype Option<+T> = None | Some(value: T)

  function Filter<T>(p: T -> bool, s: seq<T>): (r: seq<T>) {
    if s == [] then []
    else if p(s[0]) then [s[0]] + Filter(p, s[1..])
    else Filter(p, s[1..])
  }

  /** The first `k` elements, or all of them when there are fewer (`slice(0, k)`). */
  function Take<T>(s: seq<T>, k: nat): (r: seq<T>) {
    if |s| <= k then s else s[..k]
  }

  function Reverse<T>(s: seq<T>): (r: seq<T>)
    ensures |r| == |s|
  {
    if s == [] then [] else Reverse(s[1..]) + [s[0]]
  }

  ghost predicate Distinct<T>(s: seq<T>) {
    forall i, j :: 0 <= i < j < |s| ==> s[i] != s[j]
  }

  lemma {:induction false} FilterAppend<T>(p: T -> bool, s: seq<T>, t: seq<T>)
    ensures Filter(p, s + t) == Filter(p, s) + Filter(p, t)
  {
    if s == [] {
      assert s + t == t;
    } else {
      var rest := s[1..];
      FilterAppend(p, rest, t);
      assert s + t == [s[0]] + (rest + t);
      assert (s + t)[1..] == rest + t;
    }
  }

  lemma {:induction false} FilterSound<T>(p: T -> bool, s: seq<T>)
    ensures forall x :: x in Filter(p, s) <==> x in s && p(x)
  {
    if s != [] { FilterSound(p, s[1..]); }
  }

  lemma {:induction false} FilterAll<T>(p: T -> bool, s: seq<T>)
    requires forall x :: x in s ==> p(x)
    ensures Filter(p, s) == s
  {
    if s != [] { FilterAll(p, s[1..]); }
  }
}
