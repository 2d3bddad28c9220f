/**
 * The contract of JavaScript's `Array.prototype.sort` on a copy: a stable sort by a comparator.
 * `le(a, b)` stands for `cmp(a, b) <= 0`.
 */
module StableSort {
  import opened Seqs

  ghost predicate TotalPreorder<T(!new)>(le: (T, T) -> bool) {
    && (forall a, b :: le(a, b) || le(b, a))
    && (forall a, b, c :: le(a, b) && le(b, c) ==> le(a, c))
  }

  ghost predicate Sorted<T>(le: (T, T) -> bool, s: seq<T>) {
    forall i, j :: 0 <= i < j < |s| ==> le(s[i], s[j])
  }

  /** The elements of `s` that compare equal to `x`, in their order of appearance. */
  function Ties<T>(le: (T, T) -> bool, x: T, s: seq<T>): (r: seq<T>) {
    if s == [] then []
    else if le(x, s[0]) && le(s[0], x) then [s[0]] + Ties(le, x, s[1..])
    else Ties(le, x, s[1..])
  }

  /** `t` is `s` rearranged so that it is sorted and elements that compare equal keep their order. */
  ghost predicate IsStableSortOf<T(!new)>(le: (T, T) -> bool, t: seq<T>, s: seq<T>) {
    && Sorted(le, t)
    && multiset(t) == multiset(s)
    && forall x :: Ties(le, x, t) == Ties(le, x, s)
  }

  function Insert<T>(le: (T, T) -> bool, x: T, s: seq<T>): (r: seq<T>) {
    if s == [] || le(x, s[0]) then [x] + s
    else [s[0]] + Insert(le, x, s[1..])
  }

  function Sort<T>(le: (T, T) -> bool, s: seq<T>): (r: seq<T>) {
    if s == [] then [] else Insert(le, s[0], Sort(le, s[1..]))
  }

  lemma ConsSorted<T(!new)>(le: (T, T) -> bool, x: T, s: seq<T>)
    requires Sorted(le, s) && forall y :: y in s ==> le(x, y)
    ensures Sorted(le, [x] + s)
  {
  }

  lemma {:induction false} InsertMultiset<T>(le: (T, T) -> bool, x: T, s: seq<T>)
    ensures multiset(Insert(le, x, s)) == multiset{x} + multiset(s)
  {
    if s != [] && !le(x, s[0]) {
      InsertMultiset(le, x, s[1..]);
      assert s == [s[0]] + s[1..];
    }
  }

  lemma {:induction false} InsertSorted<T(!new)>(le: (T, T) -> bool, x: T, s: seq<T>)
    requires TotalPreorder(le) && Sorted(le, s)
    ensures Sorted(le, Insert(le, x, s))
  {
    if s == [] || le(x, s[0]) {
    } else {
      var rest := s[1..];
      InsertSorted(le, x, rest);
      InsertMultiset(le, x, rest);
      var r := Insert(le, x, rest);
      forall y | y in r ensures le(s[0], y) {
        assert y in multiset(r);
        assert y == x || y in rest;
      }
      ConsSorted(le, s[0], r);
    }
  }

  lemma {:induction false} InsertStable<T(!new)>(le: (T, T) -> bool, x: T, s: seq<T>, y: T)
    requires TotalPreorder(le)
    ensures Ties(le, y, Insert(le, x, s)) == Ties(le, y, [x] + s)
  {
    assert ([x] + s)[1..] == s;
    if s == [] || le(x, s[0]) {
    } else {
      var rest := s[1..];
      InsertStable(le, x, rest, y);
      assert ([s[0]] + Insert(le, x, rest))[1..] == Insert(le, x, rest);
      assert ([x] + rest)[1..] == rest;
    }
  }

  /** The sort terminates in a stable sort of its input, for every comparator that is a total preorder. */
  lemma {:induction false} SortCorrect<T(!new)>(le: (T, T) -> bool, s: seq<T>)
    requires TotalPreorder(le)
    ensures IsStableSortOf(le, Sort(le, s), s)
  {
    if s != [] {
      SortCorrect(le, s[1..]);
      InsertSorted(le, s[0], Sort(le, s[1..]));
      InsertMultiset(le, s[0], Sort(le, s[1..]));
      assert s == [s[0]] + s[1..];
      forall y ensures Ties(le, y, Sort(le, s)) == Ties(le, y, s) {
        InsertStable(le, s[0], Sort(le, s[1..]), y);
        var r := [s[0]] + Sort(le, s[1..]);
        assert r[1..] == Sort(le, s[1..]);
      }
    }
  }

  lemma {:induction false} TiesMember<T>(le: (T, T) -> bool, x: T, s: seq<T>)
    ensures forall y :: y in Ties(le, x, s) <==> y in s && le(x, y) && le(y, x)
  {
    if s != [] { TiesMember(le, x, s[1..]); }
  }

  /** A stable sort is unique: the three conditions of `IsStableSortOf` leave no freedom. */
  lemma {:induction false} StableSortUnique<T(!new)>(le: (T, T) -> bool, t: seq<T>, u: seq<T>)
    requires TotalPreorder(le)
    requires |t| == |u| && Sorted(le, t) && Sorted(le, u)
    requires forall x :: Ties(le, x, t) == Ties(le, x, u)
    ensures t == u
  {
    if t != [] {
      TiesMember(le, t[0], t);
      TiesMember(le, t[0], u);
      assert t[0] in Ties(le, t[0], u);
      TiesMember(le, u[0], t);
      TiesMember(le, u[0], u);
      assert u[0] in Ties(le, u[0], t);
      // both heads are minimal, so they compare equal and head the same tie class
      assert le(t[0], u[0]) && le(u[0], t[0]);
      assert Ties(le, t[0], t)[0] == t[0] && Ties(le, t[0], u)[0] == u[0];
      forall x ensures Ties(le, x, t[1..]) == Ties(le, x, u[1..]) {
        TiesOfTail(le, x, t);
        TiesOfTail(le, x, u);
      }
      StableSortUnique(le, t[1..], u[1..]);
      assert t == [t[0]] + t[1..] && u == [u[0]] + u[1..];
    }
  }

  lemma TiesOfTail<T>(le: (T, T) -> bool, x: T, s: seq<T>)
    requires s != []
    ensures Ties(le, x, s[1..]) == if le(x, s[0]) && le(s[0], x) then Ties(le, x, s)[1..] else Ties(le, x, s)
  {
  }
}
