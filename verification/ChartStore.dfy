/** The candle list of the chart, and the merging append that a replay writes to. */
module Chart {
  import opened Seqs

  /** `timestamp` is the text the server sent; two candles are "the same bar" when these texts are equal. */
  datatype Candle = Candle(timestamp: string, open: real, high: real, low: real, close: real, volume: real)

  /** The instant that a timestamp text denotes, in milliseconds (`new Date(text).getTime()`). */
  type Clock = string -> int

  function Add(chart: seq<Candle>, c: Candle): (r: seq<Candle>)
    ensures r != [] && r[|r| - 1] == c
  {
    if chart != [] && chart[|chart| - 1].timestamp == c.timestamp
    then chart[..|chart| - 1] + [c]
    else chart + [c]
  }

  /** What `base` becomes when the first `n` candles of `cs` are added to it one after another. */
  function Merge(base: seq<Candle>, cs: seq<Candle>, n: nat): (r: seq<Candle>)
    requires n <= |cs|
  {
    if n == 0 then base else Add(Merge(base, cs, n - 1), cs[n - 1])
  }

  function MergeAll(cs: seq<Candle>): seq<Candle> { Merge([], cs, |cs|) }

  /** The last candle of `cs` that carries `timestamp`. */
  function LastWith(timestamp: string, cs: seq<Candle>): Option<Candle> {
    if cs == [] then None
    else
      var later := LastWith(timestamp, cs[1..]);
      if later.Some? then later
      else if cs[0].timestamp == timestamp then Some(cs[0]) else None
  }

  ghost predicate HasTimestamp(timestamp: string, cs: seq<Candle>) {
    exists c :: c in cs && c.timestamp == timestamp
  }

  ghost predicate StrictlyAscending(clock: Clock, cs: seq<Candle>) {
    forall i, j :: 0 <= i < j < |cs| ==> clock(cs[i].timestamp) < clock(cs[j].timestamp)
  }

  ghost predicate Ascending(clock: Clock, cs: seq<Candle>) {
    forall i, j :: 0 <= i < j < |cs| ==> clock(cs[i].timestamp) <= clock(cs[j].timestamp)
  }

  /** No instant is written in two different ways among the timestamps of `cs`. */
  ghost predicate OneTextPerInstant(clock: Clock, cs: seq<Candle>) {
    forall a, b :: a in cs && b in cs && clock(a.timestamp) == clock(b.timestamp) ==> a.timestamp == b.timestamp
  }

  lemma AddSubset(m: seq<Candle>, c: Candle)
    ensures forall d :: d in Add(m, c) ==> d == c || d in m
  {
  }

  lemma {:induction false} MergeSubset(cs: seq<Candle>, n: nat)
    requires n <= |cs|
    ensures forall d :: d in Merge([], cs, n) ==> d in cs
    ensures n > 0 ==> var m := Merge([], cs, n); m != [] && m[|m| - 1] == cs[n - 1]
  {
    hide Add;
    if n > 0 {
      MergeSubset(cs, n - 1);
      AddSubset(Merge([], cs, n - 1), cs[n - 1]);
    }
  }

  /** Adding loses no timestamp: the candle it may replace has the timestamp of the new one. */
  lemma AddCovers(m: seq<Candle>, c: Candle, timestamp: string)
    ensures HasTimestamp(timestamp, m) ==> HasTimestamp(timestamp, Add(m, c))
    ensures HasTimestamp(c.timestamp, Add(m, c))
  {
    var r := Add(m, c);
    assert r[|r| - 1] == c;
    if HasTimestamp(timestamp, m) {
      var d :| d in m && d.timestamp == timestamp;
      var i :| 0 <= i < |m| && m[i] == d;
      assert r[i].timestamp == timestamp;
    }
  }

  /** Merging drops only candles that a neighbour with the same timestamp replaces. */
  lemma {:induction false} MergeCovers(cs: seq<Candle>, n: nat, k: nat)
    requires k < n <= |cs|
    ensures HasTimestamp(cs[k].timestamp, Merge([], cs, n))
  {
    hide Add, HasTimestamp;
    AddCovers(Merge([], cs, n - 1), cs[n - 1], cs[k].timestamp);
    if k < n - 1 { MergeCovers(cs, n - 1, k); }
  }

  lemma {:induction false} LastWithAppend(timestamp: string, cs: seq<Candle>, c: Candle)
    ensures LastWith(timestamp, cs + [c]) == if c.timestamp == timestamp then Some(c) else LastWith(timestamp, cs)
  {
    if cs == [] {
      assert cs + [c] == [c];
    } else {
      LastWithAppend(timestamp, cs[1..], c);
      assert (cs + [c])[1..] == cs[1..] + [c];
    }
  }

  lemma {:induction false} MergeStrict(clock: Clock, cs: seq<Candle>, n: nat)
    requires n <= |cs| && Ascending(clock, cs) && OneTextPerInstant(clock, cs)
    ensures StrictlyAscending(clock, Merge([], cs, n))
  {
    hide Add, StrictlyAscending;
    if n <= 1 {
      FewAscend(clock, cs, n);
    } else {
      MergeStrict(clock, cs, n - 1);
      MergeSubset(cs, n - 1);
      assert clock(cs[n - 2].timestamp) <= clock(cs[n - 1].timestamp);
      assert cs[n - 2] in cs && cs[n - 1] in cs;
      AddStrict(clock, Merge([], cs, n - 1), cs[n - 1]);
    }
  }

  lemma FewAscend(clock: Clock, cs: seq<Candle>, n: nat)
    requires n <= 1 && n <= |cs|
    ensures StrictlyAscending(clock, Merge([], cs, n))
  {
  }

  lemma AddStrict(clock: Clock, m: seq<Candle>, c: Candle)
    requires m != [] && StrictlyAscending(clock, m)
    requires m[|m| - 1].timestamp == c.timestamp || clock(m[|m| - 1].timestamp) < clock(c.timestamp)
    ensures StrictlyAscending(clock, Add(m, c))
  {
    var last := m[|m| - 1];
    assert forall i :: 0 <= i < |m| - 1 ==> clock(m[i].timestamp) < clock(last.timestamp);
  }

  /** The place on the chart of an added candle's timestamp. */
  lemma PlaceOf(cs: seq<Candle>, a: Candle) returns (i: nat)
    requires a in cs
    ensures i < |MergeAll(cs)| && MergeAll(cs)[i].timestamp == a.timestamp
  {
    hide Merge, Add;
    var m := MergeAll(cs);
    var k :| 0 <= k < |cs| && cs[k] == a;
    MergeCovers(cs, |cs|, k);
    var c :| c in m && c.timestamp == a.timestamp;
    i :| 0 <= i < |m| && m[i] == c;
  }

  /**
   * The chart left by adding time-ordered candles is strictly ascending exactly when no instant is
   * written in two ways: the append compares texts, the order compares instants.
   */
  lemma MergeAscends(clock: Clock, cs: seq<Candle>)
    requires Ascending(clock, cs)
    ensures StrictlyAscending(clock, MergeAll(cs)) <==> OneTextPerInstant(clock, cs)
  {
    hide Merge, Add;
    if OneTextPerInstant(clock, cs) { MergeStrict(clock, cs, |cs|); }
    if StrictlyAscending(clock, MergeAll(cs)) {
      hide MergeAll, Ascending;
      forall a, b | a in cs && b in cs && clock(a.timestamp) == clock(b.timestamp) ensures a.timestamp == b.timestamp {
        var i := PlaceOf(cs, a);
        var j := PlaceOf(cs, b);
        assert i == j;
      }
    }
  }

  /** On a strictly ascending chart a candle that another one was just added to is that one, or was there before. */
  lemma AddedOrKept(clock: Clock, m: seq<Candle>, c: Candle, d: Candle)
    requires StrictlyAscending(clock, Add(m, c)) && d in Add(m, c)
    ensures d == c || (d in m && d.timestamp != c.timestamp)
  {
    var m' := Add(m, c);
    var i :| 0 <= i < |m'| && m'[i] == d;
    if i < |m'| - 1 {
      assert clock(d.timestamp) < clock(c.timestamp);
      assert m[i] == d;
    }
  }

  /** Each surviving candle is the last one that was added with its timestamp. */
  lemma {:induction false} MergeKeepsLast(clock: Clock, cs: seq<Candle>, n: nat, d: Candle)
    requires n <= |cs| && Ascending(clock, cs) && OneTextPerInstant(clock, cs)
    requires d in Merge([], cs, n)
    ensures LastWith(d.timestamp, cs[..n]) == Some(d)
  {
    hide Add, StrictlyAscending, LastWith;
    if n > 0 {
      var c := cs[n - 1];
      assert cs[..n] == cs[..n - 1] + [c];
      LastWithAppend(d.timestamp, cs[..n - 1], c);
      MergeStrict(clock, cs, n);
      AddedOrKept(clock, Merge([], cs, n - 1), c, d);
      hide Ascending, OneTextPerInstant;
      if d != c { MergeKeepsLast(clock, cs, n - 1, d); }
    }
  }

  class ChartStore {
    var candles: seq<Candle>

    constructor ()
      ensures candles == []
    {
      candles := [];
    }

    method AddCandle(c: Candle)
      modifies this
      ensures candles == Add(old(candles), c)
      ensures var n := |old(candles)|;
        if n > 0 && old(candles)[n - 1].timestamp == c.timestamp
        then |candles| == n && candles[n - 1] == c && candles[..n - 1] == old(candles)[..n - 1]
        else |candles| == n + 1 && candles[n] == c && candles[..n] == old(candles)
    {
      var existing := candles;
      if |existing| > 0 && existing[|existing| - 1].timestamp == c.timestamp {
        var updated := existing;
        updated := updated[|updated| - 1 := c];
        candles := updated;
      } else {
        candles := existing + [c];
      }
    }

    method SetCandles(cs: seq<Candle>)
      modifies this
      ensures candles == cs
    {
      candles := cs;
    }
  }
}
