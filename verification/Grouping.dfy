/** Grouping a list by a key into an insertion-ordered map, as the event timeline and the live desk do. */
module Grouping {
  import opened Seqs

  /** A JavaScript `Map`: its keys in insertion order, and the list stored under each. */
  datatype Groups<T> = Groups(keys: seq<string>, lists: map<string, seq<T>>)

  /** The elements of `xs` with key `k`, in order. */
  function WithKey<T>(key: T -> string, k: string, xs: seq<T>): seq<T> {
    if xs == [] then []
    else
      var rest := WithKey(key, k, xs[..|xs| - 1]);
      if key(xs[|xs| - 1]) == k then rest + [xs[|xs| - 1]] else rest
  }

  /** The position of the first element with key `k`, or the length of the list. */
  function FirstIndex<T>(key: T -> string, k: string, xs: seq<T>): (i: nat)
    ensures i <= |xs| && (i < |xs| ==> key(xs[i]) == k)
    ensures forall j :: 0 <= j < i ==> key(xs[j]) != k
  {
    if xs == [] then 0
    else if key(xs[0]) == k then 0
    else FirstIndex(key, k, xs[1..]) + 1
  }

  ghost predicate InFirstOrder<T>(key: T -> string, xs: seq<T>, ks: seq<string>) {
    forall i, j :: 0 <= i < j < |ks| ==> FirstIndex(key, ks[i], xs) < FirstIndex(key, ks[j], xs)
  }

  /**
   * Keys appear once each, in the order of their first element; every element's key has a group; and each
   * group is the filter of the input by its key.
   */
  ghost predicate IsGrouping<T>(key: T -> string, xs: seq<T>, g: Groups<T>) {
    && InFirstOrder(key, xs, g.keys)
    && (forall k :: k in g.keys <==> FirstIndex(key, k, xs) < |xs|)
    && (forall k :: k in g.lists <==> k in g.keys)
    && (forall k :: k in g.lists ==> g.lists[k] == WithKey(key, k, xs))
  }

  lemma {:induction false} FirstIndexSnoc<T>(key: T -> string, k: string, xs: seq<T>, x: T)
    ensures FirstIndex(key, k, xs + [x]) ==
      if FirstIndex(key, k, xs) < |xs| then FirstIndex(key, k, xs) else if key(x) == k then |xs| else |xs| + 1
  {
    if xs == [] {
      assert xs + [x] == [x];
    } else {
      FirstIndexSnoc(key, k, xs[1..], x);
      assert (xs + [x])[1..] == xs[1..] + [x];
    }
  }

  lemma {:induction false} WithKeyAbsent<T>(key: T -> string, k: string, xs: seq<T>)
    requires FirstIndex(key, k, xs) == |xs|
    ensures WithKey(key, k, xs) == []
  {
    if xs != [] {
      var before := xs[..|xs| - 1];
      assert xs == before + [xs[|xs| - 1]];
      FirstIndexSnoc(key, k, before, xs[|xs| - 1]);
      WithKeyAbsent(key, k, before);
    }
  }

  /** The groups after `x` is appended to its group, or to a new group at the end. */
  function Pushed<T>(key: T -> string, g: Groups<T>, x: T): Groups<T> {
    var k := key(x);
    if k in g.lists then g.(lists := g.lists[k := g.lists[k] + [x]])
    else Groups(g.keys + [k], g.lists[k := [x]])
  }

  lemma WithKeySnoc<T>(key: T -> string, k: string, xs: seq<T>, x: T)
    ensures WithKey(key, k, xs + [x]) == if key(x) == k then WithKey(key, k, xs) + [x] else WithKey(key, k, xs)
  {
    assert (xs + [x])[..|xs|] == xs;
  }

  lemma PushKeepsOrder<T>(key: T -> string, xs: seq<T>, g: Groups<T>, x: T)
    requires IsGrouping(key, xs, g)
    ensures InFirstOrder(key, xs + [x], Pushed(key, g, x).keys)
  {
    hide WithKey, FirstIndex;
    var ks := Pushed(key, g, x).keys;
    forall i, j | 0 <= i < j < |ks| ensures FirstIndex(key, ks[i], xs + [x]) < FirstIndex(key, ks[j], xs + [x]) {
      FirstIndexSnoc(key, ks[i], xs, x);
      FirstIndexSnoc(key, ks[j], xs, x);
      assert ks[i] in g.keys;
    }
  }

  lemma PushKeepsSeen<T>(key: T -> string, xs: seq<T>, g: Groups<T>, x: T)
    requires IsGrouping(key, xs, g)
    ensures forall k :: k in Pushed(key, g, x).keys <==> FirstIndex(key, k, xs + [x]) < |xs + [x]|
  {
    hide WithKey, FirstIndex;
    var ks := Pushed(key, g, x).keys;
    forall k ensures k in ks <==> FirstIndex(key, k, xs + [x]) < |xs + [x]| {
      FirstIndexSnoc(key, k, xs, x);
    }
  }

  lemma PushKeepsLists<T>(key: T -> string, xs: seq<T>, g: Groups<T>, x: T)
    requires IsGrouping(key, xs, g)
    ensures forall k :: k in Pushed(key, g, x).lists ==> Pushed(key, g, x).lists[k] == WithKey(key, k, xs + [x])
  {
    hide FirstIndex, WithKey, InFirstOrder;
    var g', k := Pushed(key, g, x), key(x);
    if k !in g.lists { WithKeyAbsent(key, k, xs); }
    forall c | c in g'.lists ensures g'.lists[c] == WithKey(key, c, xs + [x]) {
      WithKeySnoc(key, c, xs, x);
    }
  }

  lemma PushKeepsGrouping<T>(key: T -> string, xs: seq<T>, g: Groups<T>, x: T)
    requires IsGrouping(key, xs, g)
    ensures IsGrouping(key, xs + [x], Pushed(key, g, x))
  {
    PushKeepsOrder(key, xs, g, x);
    PushKeepsSeen(key, xs, g, x);
    PushKeepsLists(key, xs, g, x);
    hide FirstIndex, WithKey, InFirstOrder;
  }

  /** The four conditions leave no freedom: a grouping is unique. */
  lemma GroupingUnique<T>(key: T -> string, xs: seq<T>, g: Groups<T>, h: Groups<T>)
    requires IsGrouping(key, xs, g) && IsGrouping(key, xs, h)
    ensures g == h
  {
    hide FirstIndex, WithKey;
    assert g.lists == h.lists;
    SameKeys(key, xs, g.keys, h.keys);
  }

  lemma {:induction false} SameKeys<T>(key: T -> string, xs: seq<T>, ks: seq<string>, ls: seq<string>)
    requires InFirstOrder(key, xs, ks) && InFirstOrder(key, xs, ls)
    requires forall k :: k in ks <==> k in ls
    ensures ks == ls
  {
    hide FirstIndex;
    if |ks| > 0 {
      assert ks[0] in ls;
      SameHead(key, xs, ks, ls);
      forall k ensures k in ks[1..] <==> k in ls[1..] {
        TailMembers(key, xs, ks, k);
        TailMembers(key, xs, ls, k);
      }
      SameKeys(key, xs, ks[1..], ls[1..]);
      assert ks == [ks[0]] + ks[1..] && ls == [ls[0]] + ls[1..];
    } else if |ls| > 0 {
      var k := AMember(ls);
      assert false;
    }
  }

  lemma AMember<T>(s: seq<T>) returns (x: T)
    requires s != []
    ensures x in s
  {
    x := s[0];
  }

  lemma SameHead<T>(key: T -> string, xs: seq<T>, ks: seq<string>, ls: seq<string>)
    requires InFirstOrder(key, xs, ks) && InFirstOrder(key, xs, ls) && ks != [] && ls != []
    requires ks[0] in ls && ls[0] in ks
    ensures ks[0] == ls[0]
  {
    hide FirstIndex;
    var i :| 0 <= i < |ls| && ls[i] == ks[0];
    var j :| 0 <= j < |ks| && ks[j] == ls[0];
  }

  lemma TailMembers<T>(key: T -> string, xs: seq<T>, ks: seq<string>, k: string)
    requires InFirstOrder(key, xs, ks) && ks != []
    ensures k in ks[1..] <==> k in ks && k != ks[0]
  {
    hide FirstIndex;
    if k in ks[1..] {
      var a :| 0 <= a < |ks| - 1 && ks[1..][a] == k;
      assert ks[a + 1] == k;
    }
  }

  /** All groups one after another, in key order. */
  function Concatenated<T>(lists: map<string, seq<T>>, keys: seq<string>): seq<T>
    requires forall k :: k in keys ==> k in lists
  {
    if keys == [] then [] else lists[keys[0]] + Concatenated(lists, keys[1..])
  }

  lemma {:induction false} ConcatenatedPush<T>(lists: map<string, seq<T>>, keys: seq<string>, k: string, x: T)
    requires forall c :: c in keys ==> c in lists
    requires k in lists && forall i, j :: 0 <= i < j < |keys| ==> keys[i] != keys[j]
    ensures multiset(Concatenated(lists[k := lists[k] + [x]], keys)) ==
      multiset(Concatenated(lists, keys)) + if k in keys then multiset{x} else multiset{}
  {
    if keys != [] {
      ConcatenatedPush(lists, keys[1..], k, x);
      assert keys == [keys[0]] + keys[1..];
    }
  }

  lemma {:induction false} ConcatenatedAppend<T>(lists: map<string, seq<T>>, keys: seq<string>, k: string, xs: seq<T>)
    requires forall c :: c in keys ==> c in lists
    requires k !in keys
    ensures Concatenated(lists[k := xs], keys + [k]) == Concatenated(lists, keys) + xs
  {
    var m := lists[k := xs];
    if keys == [] {
      assert keys + [k] == [k] && [k][1..] == [];
      assert Concatenated(m, [k]) == xs + Concatenated(m, []);
    } else {
      ConcatenatedAppend(lists, keys[1..], k, xs);
      assert (keys + [k])[1..] == keys[1..] + [k];
    }
  }

  /** Pushing an element adds that element, once, to the groups taken together. */
  lemma PushAddsOne<T>(key: T -> string, xs: seq<T>, g: Groups<T>, x: T)
    requires IsGrouping(key, xs, g)
    requires forall k :: k in g.keys <==> k in g.lists
    ensures forall k :: k in Pushed(key, g, x).keys ==> k in Pushed(key, g, x).lists
    ensures multiset(Concatenated(Pushed(key, g, x).lists, Pushed(key, g, x).keys)) ==
      multiset(Concatenated(g.lists, g.keys)) + multiset{x}
  {
    DistinctKeys(key, xs, g);
    hide IsGrouping, Concatenated;
    if key(x) in g.lists {
      ConcatenatedPush(g.lists, g.keys, key(x), x);
    } else {
      ConcatenatedAppend(g.lists, g.keys, key(x), [x]);
    }
  }

  function Grouped<T>(key: T -> string, xs: seq<T>): Groups<T> {
    if xs == [] then Groups([], map[]) else Pushed(key, Grouped(key, xs[..|xs| - 1]), xs[|xs| - 1])
  }

  lemma GroupedSnoc<T>(key: T -> string, xs: seq<T>, x: T)
    ensures Grouped(key, xs + [x]) == Pushed(key, Grouped(key, xs), x)
  {
    hide Pushed;
    assert (xs + [x])[..|xs|] == xs;
  }

  lemma NothingGrouped<T>(key: T -> string)
    ensures IsGrouping(key, [], Grouped(key, []))
    ensures Partitions(Grouped(key, []), [])
  {
    hide WithKey;
  }

  lemma GroupedExtends<T>(key: T -> string, xs: seq<T>, x: T)
    requires IsGrouping(key, xs, Grouped(key, xs))
    ensures IsGrouping(key, xs + [x], Grouped(key, xs + [x]))
  {
    hide *;
    GroupedSnoc(key, xs, x);
    PushKeepsGrouping(key, xs, Grouped(key, xs), x);
  }

  lemma {:induction false} GroupedIsGrouping<T>(key: T -> string, xs: seq<T>)
    ensures IsGrouping(key, xs, Grouped(key, xs))
  {
    hide *;
    if xs == [] {
      NothingGrouped(key);
    } else {
      var before, x := xs[..|xs| - 1], xs[|xs| - 1];
      GroupedIsGrouping(key, before);
      GroupedExtends(key, before, x);
      assert xs == before + [x];
    }
  }

  ghost predicate Partitions<T>(g: Groups<T>, xs: seq<T>) {
    && (forall k :: k in g.keys <==> k in g.lists)
    && multiset(Concatenated(g.lists, g.keys)) == multiset(xs)
  }

  lemma PartitionExtends<T>(key: T -> string, xs: seq<T>, x: T)
    requires Partitions(Grouped(key, xs), xs)
    ensures Partitions(Grouped(key, xs + [x]), xs + [x])
  {
    hide IsGrouping, Grouped, Pushed, Concatenated;
    GroupedIsGrouping(key, xs);
    GroupedSnoc(key, xs, x);
    PushAddsOne(key, xs, Grouped(key, xs), x);
    PushKeepsKeys(Grouped(key, xs), key, x);
  }

  lemma PushKeepsKeys<T>(g: Groups<T>, key: T -> string, x: T)
    requires forall k :: k in g.keys <==> k in g.lists
    ensures forall k :: k in Pushed(key, g, x).keys <==> k in Pushed(key, g, x).lists
  {
  }

  lemma {:induction false} GroupedIsPartition<T>(key: T -> string, xs: seq<T>)
    ensures Partitions(Grouped(key, xs), xs)
  {
    hide *;
    if xs == [] {
      NothingGrouped(key);
    } else {
      var before, x := xs[..|xs| - 1], xs[|xs| - 1];
      GroupedIsPartition(key, before);
      PartitionExtends(key, before, x);
      assert xs == before + [x];
    }
  }

  /** Whichever way the groups were built, together they hold every element of the input exactly once. */
  lemma GroupsPartition<T>(key: T -> string, xs: seq<T>, g: Groups<T>)
    requires IsGrouping(key, xs, g)
    ensures multiset(Concatenated(g.lists, g.keys)) == multiset(xs)
  {
    GroupedIsPartition(key, xs);
    GroupedIsGrouping(key, xs);
    GroupingUnique(key, xs, g, Grouped(key, xs));
  }

  /** The event timeline: look the group up, push into it, or store a new one. */
  method GroupByAggregate<T>(key: T -> string, events: seq<T>) returns (g: Groups<T>)
    ensures IsGrouping(key, events, g)
  {
    g := Groups([], map[]);
    for n := 0 to |events|
      invariant IsGrouping(key, events[..n], g)
    {
      var ev := events[n];
      var k := key(ev);
      assert events[..n + 1] == events[..n] + [ev];
      PushKeepsGrouping(key, events[..n], g, ev);
      if k in g.lists {
        g := g.(lists := g.lists[k := g.lists[k] + [ev]]);
      } else {
        g := Groups(g.keys + [k], g.lists[k := [ev]]);
      }
    }
    assert events[..|events|] == events;
  }

  lemma DistinctKeys<T>(key: T -> string, xs: seq<T>, g: Groups<T>)
    requires IsGrouping(key, xs, g)
    ensures forall i, j :: 0 <= i < j < |g.keys| ==> g.keys[i] != g.keys[j]
  {
    hide FirstIndex, WithKey;
  }

  /** The live desk: take the group or a new list, push, and store it back under its key. */
  method PositionsByAccount<T>(key: T -> string, positions: seq<T>) returns (g: Groups<T>)
    ensures IsGrouping(key, positions, g)
  {
    g := Groups([], map[]);
    for n := 0 to |positions|
      invariant IsGrouping(key, positions[..n], g)
    {
      var p := positions[n];
      var k := key(p);
      assert positions[..n + 1] == positions[..n] + [p];
      PushKeepsGrouping(key, positions[..n], g, p);
      var list := if k in g.lists then g.lists[k] else [];
      list := list + [p];
      var keys := if k in g.lists then g.keys else g.keys + [k];
      g := Groups(keys, g.lists[k := list]);
    }
    assert positions[..|positions|] == positions;
  }
}
