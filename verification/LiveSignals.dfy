/** The live-signal panels: newest first, one entry per id, cut to a fixed length. */
module LiveSignals {
  import opened Seqs
  import opened SignalStore

  /** The chart keeps 30 signals; the live desk keeps 8, whatever their instrument. */
  const CHART_LIMIT: nat := 30

  function Without(id: string, list: seq<Signal>): seq<Signal> {
    if list == [] then []
    else
      var rest := Without(id, list[1..]);
      if list[0].id == id then rest else [list[0]] + rest
  }

  /** The new signal first, then the others without an older version of it. */
  function Front(list: seq<Signal>, s: Signal): seq<Signal> { [s] + Without(s.id, list) }

  /** The panel after the arrival of `s`, cut to `k` entries. */
  function Arrive(k: nat, list: seq<Signal>, s: Signal): seq<Signal> { Take(Front(list, s), k) }

  /** The chart's panel takes only signals of its instrument. */
  function ChartPanel(instrument: string, list: seq<Signal>, arrivals: seq<Signal>): seq<Signal> {
    if arrivals == [] then list
    else
      var before, s := ChartPanel(instrument, list, arrivals[..|arrivals| - 1]), arrivals[|arrivals| - 1];
      if s.instrument == instrument then Arrive(CHART_LIMIT, before, s) else before
  }

  /** Cutting after every arrival. */
  function Panel(k: nat, list: seq<Signal>, arrivals: seq<Signal>): seq<Signal> {
    if arrivals == [] then list
    else Arrive(k, Panel(k, list, arrivals[..|arrivals| - 1]), arrivals[|arrivals| - 1])
  }

  /** Never cutting. */
  function Kept(list: seq<Signal>, arrivals: seq<Signal>): seq<Signal> {
    if arrivals == [] then list else Front(Kept(list, arrivals[..|arrivals| - 1]), arrivals[|arrivals| - 1])
  }

  lemma {:induction false} WithoutMembers(id: string, list: seq<Signal>)
    ensures forall x :: x in Without(id, list) <==> x in list && x.id != id
  {
    if list != [] { WithoutMembers(id, list[1..]); }
  }

  ghost predicate DistinctIds(list: seq<Signal>) {
    forall i, j :: 0 <= i < j < |list| ==> list[i].id != list[j].id
  }

  lemma {:induction false} WithoutDistinct(id: string, list: seq<Signal>)
    requires DistinctIds(list)
    ensures DistinctIds(Without(id, list))
  {
    if list != [] {
      WithoutDistinct(id, list[1..]);
      WithoutMembers(id, list[1..]);
    }
  }

  lemma {:induction false} WithoutAbsent(id: string, list: seq<Signal>)
    requires forall x :: x in list ==> x.id != id
    ensures Without(id, list) == list
  {
    if list != [] { WithoutAbsent(id, list[1..]); }
  }

  predicate OnlyId(id: string, list: seq<Signal>) { forall x :: x in list ==> x.id == id }

  /** From the first entry with `id` on, the list holds no other id. */
  predicate EndsAt(id: string, list: seq<Signal>) {
    list != [] ==> if list[0].id == id then OnlyId(id, list) else EndsAt(id, list[1..])
  }

  /** An id is repeated, if at all, only by entries that end the list. */
  predicate RepeatsOnlyAtEnd(list: seq<Signal>) {
    list != [] ==> EndsAt(list[0].id, list[1..]) && RepeatsOnlyAtEnd(list[1..])
  }

  lemma {:induction false} AbsentEndsAt(id: string, list: seq<Signal>)
    requires forall x :: x in list ==> x.id != id
    ensures EndsAt(id, list)
  {
    if list != [] { AbsentEndsAt(id, list[1..]); }
  }

  lemma {:induction false} DistinctRepeatsNothing(list: seq<Signal>)
    requires DistinctIds(list)
    ensures RepeatsOnlyAtEnd(list)
  {
    if list != [] {
      AbsentEndsAt(list[0].id, list[1..]);
      DistinctRepeatsNothing(list[1..]);
    }
  }

  lemma {:induction false} WithoutEndsAt(id: string, other: string, list: seq<Signal>)
    requires EndsAt(id, list)
    ensures EndsAt(id, Without(other, list))
  {
    if list != [] && list[0].id != id {
      WithoutEndsAt(id, other, list[1..]);
    } else if list != [] {
      WithoutMembers(other, list);
    }
  }

  lemma {:induction false} FrontKeepsRepeats(list: seq<Signal>, s: Signal)
    requires RepeatsOnlyAtEnd(list)
    ensures RepeatsOnlyAtEnd(Without(s.id, list)) && RepeatsOnlyAtEnd(Front(list, s))
  {
    WithoutMembers(s.id, list);
    AbsentEndsAt(s.id, Without(s.id, list));
    if list != [] {
      FrontKeepsRepeats(list[1..], s);
      WithoutEndsAt(list[0].id, s.id, list[1..]);
    }
  }

  /** What a cut list loses of an id that ends it was not among the first entries anyway. */
  lemma {:induction false} EndsAtTake(id: string, list: seq<Signal>, k: nat)
    requires EndsAt(id, list)
    ensures Without(id, Take(list, k)) == Take(Without(id, list), k)
  {
    if list != [] && k > 0 {
      if list[0].id == id {
        OnlyWithout(id, list);
        OnlyWithout(id, Take(list, k));
      } else {
        var x, rest := list[0], list[1..];
        EndsAtTake(id, rest, k - 1);
        WithoutCons(id, x, rest);
        WithoutCons(id, x, Take(rest, k - 1));
        TakeCons(x, rest, k);
        TakeCons(x, Without(id, rest), k);
        assert list == [x] + rest;
        hide Without, Take;
      }
    }
  }

  lemma {:induction false} OnlyWithout(id: string, list: seq<Signal>)
    requires OnlyId(id, list)
    ensures Without(id, list) == []
  {
    if list != [] { OnlyWithout(id, list[1..]); }
  }

  /** Removing an id from the first `k` entries, or from all, leaves the same first `k - 1` entries. */
  lemma {:induction false} WithoutTake(id: string, list: seq<Signal>, k: nat)
    requires RepeatsOnlyAtEnd(list) && k > 0
    ensures Take(Without(id, Take(list, k)), k - 1) == Take(Without(id, list), k - 1)
  {
    if |list| > k {
      var rest := list[1..];
      assert list[..k][1..] == rest[..k - 1];
      if list[0].id == id {
        EndsAtTake(id, rest, k - 1);
      } else if k > 1 {
        WithoutTake(id, rest, k - 1);
        assert Take(rest, k - 1) == rest[..k - 1];
        TakeCons(list[0], Without(id, rest), k - 1);
        TakeCons(list[0], Without(id, rest[..k - 1]), k - 1);
      }
    }
  }

  lemma TakeCons<T>(x: T, s: seq<T>, k: nat)
    requires k > 0
    ensures Take([x] + s, k) == [x] + Take(s, k - 1)
  {
  }

  lemma {:induction false} KeptDistinct(list: seq<Signal>, arrivals: seq<Signal>)
    requires DistinctIds(list)
    ensures DistinctIds(Kept(list, arrivals))
  {
    if arrivals != [] {
      var kept, s := Kept(list, arrivals[..|arrivals| - 1]), arrivals[|arrivals| - 1];
      KeptDistinct(list, arrivals[..|arrivals| - 1]);
      WithoutDistinct(s.id, kept);
      WithoutMembers(s.id, kept);
    }
  }

  /** Cutting after every arrival gives the same panel as keeping everything and cutting once at the end. */
  lemma {:induction false} CutOnce(k: nat, list: seq<Signal>, arrivals: seq<Signal>)
    requires RepeatsOnlyAtEnd(list)
    ensures Panel(k, Take(list, k), arrivals) == Take(Kept(list, arrivals), k)
    ensures RepeatsOnlyAtEnd(Kept(list, arrivals))
  {
    if arrivals != [] {
      var before, s := arrivals[..|arrivals| - 1], arrivals[|arrivals| - 1];
      CutOnce(k, list, before);
      var kept := Kept(list, before);
      FrontKeepsRepeats(kept, s);
      hide RepeatsOnlyAtEnd, Without;
      if k > 0 {
        WithoutTake(s.id, kept, k);
        TakeCons(s, Without(s.id, Take(kept, k)), k);
        TakeCons(s, Without(s.id, kept), k);
      }
    }
  }

  ghost predicate CutIsExact(list: seq<Signal>) {
    forall k: nat, arrivals: seq<Signal> :: Panel(k, Take(list, k), arrivals) == Take(Kept(list, arrivals), k)
  }

  /** A repetition followed by another id: the third entry is lost by a cut that the first two still fill. */
  lemma {:induction false} FindRepeat(list: seq<Signal>) returns (k: nat, s: Signal)
    requires !RepeatsOnlyAtEnd(list)
    ensures k < |list| && list[k].id != s.id && |Without(s.id, list[..k])| + 2 <= k
  {
    var rest := list[1..];
    hide Without, EndsAt;
    if !EndsAt(list[0].id, rest) {
      s := list[0];
      var n := FindOther(s.id, rest);
      k := n + 1;
      WithoutPrefix(s.id, list, n);
    } else {
      var n;
      n, s := FindRepeat(rest);
      k := n + 1;
      WithoutPrefix(s.id, list, n);
    }
  }

  /** An entry with another id, after one with `id`. */
  lemma {:induction false} FindOther(id: string, list: seq<Signal>) returns (k: nat)
    requires !EndsAt(id, list)
    ensures k < |list| && list[k].id != id && |Without(id, list[..k])| + 1 <= k
  {
    var rest := list[1..];
    if list[0].id == id {
      k :| 0 < k < |list| && list[k].id != id;
      WithoutShrinks(id, list[..k][1..]);
    } else {
      var n := FindOther(id, rest);
      k := n + 1;
      WithoutPrefix(id, list, n);
    }
  }

  lemma WithoutPrefix(id: string, list: seq<Signal>, n: nat)
    requires n < |list|
    ensures |Without(id, list[..n + 1])| == |Without(id, list[1..][..n])| + if list[0].id == id then 0 else 1
  {
    assert list[..n + 1][1..] == list[1..][..n];
  }

  lemma {:induction false} WithoutShrinks(id: string, list: seq<Signal>)
    ensures |Without(id, list)| <= |list|
  {
    if list != [] { WithoutShrinks(id, list[1..]); }
  }

  lemma WithoutCons(id: string, x: Signal, list: seq<Signal>)
    ensures Without(id, [x] + list) == if x.id == id then Without(id, list) else [x] + Without(id, list)
  {
    assert ([x] + list)[1..] == list;
  }

  lemma {:induction false} WithoutAppend(id: string, s: seq<Signal>, t: seq<Signal>)
    ensures Without(id, s + t) == Without(id, s) + Without(id, t)
  {
    if s == [] {
      assert s + t == t;
    } else {
      var x, rest := s[0], s[1..];
      assert s == [x] + rest && s + t == [x] + (rest + t);
      WithoutAppend(id, rest, t);
      WithoutCons(id, x, rest);
      WithoutCons(id, x, rest + t);
      hide Without;
    }
  }

  lemma RepeatBreaksTheCut(list: seq<Signal>) returns (k: nat, s: Signal)
    requires !RepeatsOnlyAtEnd(list)
    ensures |Panel(k, Take(list, k), [s])| < |Take(Kept(list, [s]), k)|
  {
    k, s := FindRepeat(list);
    hide RepeatsOnlyAtEnd;
    var cut, rest := list[..k], list[k..];
    assert list == cut + rest;
    WithoutAppend(s.id, cut, rest);
    assert list[k] in Without(s.id, rest) by { assert rest[0] == list[k]; }
    assert [s][..0] == [];
    assert Panel(k, cut, []) == cut && Kept(list, []) == list;
    assert Panel(k, cut, [s]) == Arrive(k, cut, s) && Kept(list, [s]) == Front(list, s);
  }

  /**
   * The two ways of cutting agree, for every cut and all arrivals, exactly when the start list repeats an id
   * only at its end; distinct ids are more than enough.
   */
  lemma CutOnceIsEnough(list: seq<Signal>)
    ensures CutIsExact(list) <==> RepeatsOnlyAtEnd(list)
    ensures DistinctIds(list) ==> CutIsExact(list)
  {
    hide Panel, Kept, Take;
    if DistinctIds(list) { DistinctRepeatsNothing(list); }
    hide RepeatsOnlyAtEnd, DistinctIds;
    if RepeatsOnlyAtEnd(list) {
      forall k: nat, arrivals: seq<Signal> ensures Panel(k, Take(list, k), arrivals) == Take(Kept(list, arrivals), k) {
        CutOnce(k, list, arrivals);
      }
    } else {
      var k, s := RepeatBreaksTheCut(list);
    }
  }

  /** A start list longer than the cut is cut by the first arrival, and nothing later tells the difference. */
  lemma {:induction false} LongStart(k: nat, list: seq<Signal>, arrivals: seq<Signal>)
    requires RepeatsOnlyAtEnd(list) && arrivals != []
    ensures Panel(k, list, arrivals) == Panel(k, Take(list, k), arrivals)
  {
    var before, s := arrivals[..|arrivals| - 1], arrivals[|arrivals| - 1];
    if before != [] {
      hide Arrive;
      LongStart(k, list, before);
    } else if k > 0 {
      WithoutTake(s.id, list, k);
      TakeCons(s, Without(s.id, Take(list, k)), k);
      TakeCons(s, Without(s.id, list), k);
    }
  }

  /** The position of the last arrival with `id`, or -1. */
  function LastArrival(id: string, arrivals: seq<Signal>): (i: int)
    ensures -1 <= i < |arrivals|
    ensures i >= 0 ==> arrivals[i].id == id
    ensures forall j :: i < j < |arrivals| ==> arrivals[j].id != id
  {
    if arrivals == [] then -1
    else if arrivals[|arrivals| - 1].id == id then |arrivals| - 1
    else LastArrival(id, arrivals[..|arrivals| - 1])
  }

  /** The signals whose ids arrived most recently come first. */
  ghost predicate NewestFirst(arrivals: seq<Signal>, list: seq<Signal>) {
    forall p, q :: 0 <= p < q < |list| ==> LastArrival(list[p].id, arrivals) > LastArrival(list[q].id, arrivals)
  }

  predicate IsLatest(arrivals: seq<Signal>, x: Signal) {
    var i := LastArrival(x.id, arrivals);
    i >= 0 && arrivals[i] == x
  }

  lemma LastArrivalSnoc(id: string, arrivals: seq<Signal>)
    requires arrivals != []
    ensures LastArrival(id, arrivals) ==
      if id == arrivals[|arrivals| - 1].id then |arrivals| - 1 else LastArrival(id, arrivals[..|arrivals| - 1])
  {
  }

  lemma IsLatestSnoc(arrivals: seq<Signal>, x: Signal)
    requires arrivals != []
    ensures var before, s := arrivals[..|arrivals| - 1], arrivals[|arrivals| - 1];
      IsLatest(arrivals, x) <==> if x.id == s.id then x == s else IsLatest(before, x)
  {
    LastArrivalSnoc(x.id, arrivals);
    hide LastArrival;
  }

  /** Without a cut, the panel holds the last version of every id that arrived, and nothing else. */
  lemma {:induction false} KeptIsLatest(arrivals: seq<Signal>)
    ensures forall x :: x in Kept([], arrivals) <==> IsLatest(arrivals, x)
  {
    if arrivals != [] {
      var before, s := arrivals[..|arrivals| - 1], arrivals[|arrivals| - 1];
      KeptIsLatest(before);
      WithoutMembers(s.id, Kept([], before));
      hide IsLatest, LastArrival;
      forall x ensures x in Kept([], arrivals) <==> IsLatest(arrivals, x) {
        IsLatestSnoc(arrivals, x);
      }
    }
  }

  /** Without a cut, the most recently arrived ids come first. */
  lemma {:induction false} KeptIsNewestFirst(arrivals: seq<Signal>)
    ensures NewestFirst(arrivals, Kept([], arrivals))
  {
    if arrivals != [] {
      var before, s := arrivals[..|arrivals| - 1], arrivals[|arrivals| - 1];
      KeptIsNewestFirst(before);
      WithoutKeepsOrder(before, s.id, Kept([], before));
      hide LastArrival;
      var rest := Without(s.id, Kept([], before));
      WithoutMembers(s.id, Kept([], before));
      forall x | x in rest + [s]
        ensures LastArrival(x.id, arrivals) == if x.id == s.id then |before| else LastArrival(x.id, before)
      {
        LastArrivalSnoc(x.id, arrivals);
      }
      NewestFirstCons(arrivals, s, rest);
    }
  }

  /** A start list with distinct ids is what its own entries leave when they arrive, the last one first. */
  lemma {:induction false} StartAsArrivals(list: seq<Signal>)
    requires DistinctIds(list)
    ensures Kept([], Reverse(list)) == list
  {
    if list != [] {
      var x, rest := list[0], list[1..];
      StartAsArrivals(rest);
      KeptSnoc([], Reverse(rest), x);
      WithoutAbsent(x.id, rest);
    }
  }

  lemma KeptSnoc(list: seq<Signal>, arrivals: seq<Signal>, s: Signal)
    ensures Kept(list, arrivals + [s]) == Front(Kept(list, arrivals), s)
  {
    hide Front;
    assert (arrivals + [s])[..|arrivals|] == arrivals;
  }

  lemma {:induction false} KeptAppend(list: seq<Signal>, s: seq<Signal>, t: seq<Signal>)
    ensures Kept(list, s + t) == Kept(Kept(list, s), t)
  {
    hide Front;
    if t == [] {
      assert s + t == s;
    } else {
      var before, x := t[..|t| - 1], t[|t| - 1];
      KeptAppend(list, s, before);
      assert s + t == (s + before) + [x] && t == before + [x];
      KeptSnoc(list, s + before, x);
    }
  }

  /**
   * A panel after a fetched start list with distinct ids and any arrivals, the start list counting as older
   * arrivals: distinct ids, each entry the last version of its id, the most recent first, and an id is
   * missing only when the panel is full of more recent ones.
   */
  lemma PanelIsLatest(k: nat, list: seq<Signal>, arrivals: seq<Signal>)
    requires DistinctIds(list)
    ensures var panel, all := Panel(k, Take(list, k), arrivals), Reverse(list) + arrivals;
      && DistinctIds(panel) && NewestFirst(all, panel) && |panel| <= k
      && (forall x :: x in panel ==> IsLatest(all, x))
      && (forall x :: IsLatest(all, x) && x !in panel ==> |panel| == k && OlderThanAll(all, x, panel))
  {
    var all := Reverse(list) + arrivals;
    DistinctRepeatsNothing(list);
    CutOnce(k, list, arrivals);
    KeptDistinct(list, arrivals);
    StartAsArrivals(list);
    KeptAppend([], Reverse(list), arrivals);
    KeptIsLatest(all);
    KeptIsNewestFirst(all);
    hide Panel, Kept, IsLatest, LastArrival, RepeatsOnlyAtEnd, Reverse;
    CutKeepsLatest(k, all, Kept([], all));
  }

  lemma CutKeepsLatest(k: nat, all: seq<Signal>, kept: seq<Signal>)
    requires DistinctIds(kept) && NewestFirst(all, kept) && forall x :: x in kept <==> IsLatest(all, x)
    ensures var panel := Take(kept, k);
      && DistinctIds(panel) && NewestFirst(all, panel) && |panel| <= k
      && (forall x :: x in panel ==> IsLatest(all, x))
      && (forall x :: IsLatest(all, x) && x !in panel ==> |panel| == k && OlderThanAll(all, x, panel))
  {
    hide IsLatest, LastArrival;
    forall x | IsLatest(all, x) && x !in Take(kept, k) ensures |kept| > k && OlderThanAll(all, x, kept[..k]) {
      var i :| 0 <= i < |kept| && kept[i] == x;
      TakeMember(kept, k, i);
    }
  }

  lemma TakeMember<T>(s: seq<T>, k: nat, i: nat)
    requires i < |s|
    ensures i < k ==> s[i] in Take(s, k)
  {
    if i < k { assert Take(s, k)[i] == s[i]; }
  }

  ghost predicate OlderThanAll(arrivals: seq<Signal>, x: Signal, panel: seq<Signal>) {
    forall y :: y in panel ==> LastArrival(y.id, arrivals) > LastArrival(x.id, arrivals)
  }

  ghost predicate NewerThanAll(arrivals: seq<Signal>, x: Signal, list: seq<Signal>) {
    forall y :: y in list ==> LastArrival(x.id, arrivals) > LastArrival(y.id, arrivals)
  }

  lemma NewestFirstCons(arrivals: seq<Signal>, x: Signal, list: seq<Signal>)
    ensures NewestFirst(arrivals, [x] + list) <==> NewerThanAll(arrivals, x, list) && NewestFirst(arrivals, list)
  {
    hide LastArrival;
    if NewestFirst(arrivals, [x] + list) {
      forall y | y in list ensures LastArrival(x.id, arrivals) > LastArrival(y.id, arrivals) {
        var q :| 0 <= q < |list| && list[q] == y;
        assert ([x] + list)[0] == x && ([x] + list)[q + 1] == y;
      }
      forall p, q | 0 <= p < q < |list|
        ensures LastArrival(list[p].id, arrivals) > LastArrival(list[q].id, arrivals)
      {
        assert ([x] + list)[p + 1] == list[p] && ([x] + list)[q + 1] == list[q];
      }
    }
  }

  lemma {:induction false} WithoutKeepsOrder(arrivals: seq<Signal>, id: string, list: seq<Signal>)
    requires NewestFirst(arrivals, list)
    ensures NewestFirst(arrivals, Without(id, list))
  {
    if list != [] {
      var tail := list[1..];
      assert list == [list[0]] + tail;
      NewestFirstCons(arrivals, list[0], tail);
      WithoutMembers(id, tail);
      WithoutKeepsOrder(arrivals, id, tail);
      NewestFirstCons(arrivals, list[0], Without(id, tail));
      hide LastArrival, NewestFirst;
    }
  }

  lemma PanelSnoc(k: nat, list: seq<Signal>, arrivals: seq<Signal>, s: Signal)
    ensures Panel(k, list, arrivals + [s]) == Arrive(k, Panel(k, list, arrivals), s)
  {
    hide Arrive;
    assert (arrivals + [s])[..|arrivals|] == arrivals;
  }

  /** The chart's panel is the general one over the arrivals of its instrument. */
  lemma {:induction false} ChartPanelFilters(instrument: string, list: seq<Signal>, arrivals: seq<Signal>)
    ensures ChartPanel(instrument, list, arrivals) ==
      Panel(30, list, Filter((s: Signal) => s.instrument == instrument, arrivals))
  {
    hide Arrive, Panel;
    var p := (s: Signal) => s.instrument == instrument;
    if arrivals == [] {
      PanelNil(CHART_LIMIT, list);
    } else {
      var before, s := arrivals[..|arrivals| - 1], arrivals[|arrivals| - 1];
      ChartPanelFilters(instrument, list, before);
      FilterSnoc(p, before, s);
      assert arrivals == before + [s];
      PanelSnoc(CHART_LIMIT, list, Filter(p, before), s);
    }
  }

  lemma PanelNil(k: nat, list: seq<Signal>)
    ensures Panel(k, list, []) == list
  {
  }

  lemma FilterSnoc<T>(p: T -> bool, s: seq<T>, x: T)
    ensures Filter(p, s + [x]) == if p(x) then Filter(p, s) + [x] else Filter(p, s)
  {
    FilterAppend(p, s, [x]);
    assert [x][1..] == [];
    assert Filter(p, s) + [] == Filter(p, s);
  }
}
