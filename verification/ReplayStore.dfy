/** The replay engine: a timer-driven state machine that writes into the chart store. */
module ReplayEngine {
  import opened Seqs
  import opened StableSort
  import opened Chart

  datatype Status = Idle | Playing | Paused

  /** `setSpeed` clamps to this range, and the initial speed lies in it. */
  type Speed = r: real | 1.0 <= r <= 100.0 witness 1.0

  /** A running `setInterval`: the list its callback closed over, and its period. */
  datatype Timer = Timer(captured: seq<Candle>, periodMs: real)

  /**
   * The replay store, the timers of the host, and the chart. `base` is a history variable: the chart
   * that was on screen when the index was last set to zero.
   */
  datatype Replay = Replay(
    status: Status, speed: Speed, index: nat, candles: seq<Candle>, intervalId: Option<nat>,
    live: map<nat, Timer>, nextTimer: nat, chart: seq<Candle>, base: seq<Candle>)

  datatype Event =
    | Load(input: seq<Candle>) | Play | Pause | Resume | Rewind | StepOnce | SetSpeed(requested: real) | Stop
    | Tick(id: nat)

  const INITIAL := Replay(Idle, 1.0, 0, [], None, map[], 0, [], [])

  function ByTime(clock: Clock): (Candle, Candle) -> bool {
    (a: Candle, b: Candle) => clock(a.timestamp) <= clock(b.timestamp)
  }

  function Max(a: real, b: real): real { if a < b then b else a }

  function Min(a: real, b: real): real { if a < b then a else b }

  function Clamp(requested: real): (r: Speed)
    ensures 1.0 <= requested <= 100.0 ==> r == requested
    ensures requested < 1.0 ==> r == 1.0
    ensures requested > 100.0 ==> r == 100.0
  {
    Max(1.0, Min(100.0, requested))
  }

  function Period(speed: Speed): real { Max(10.0, 1000.0 / speed) }

  function Cleared(s: Replay): Replay {
    if s.intervalId.Some? then s.(live := s.live - {s.intervalId.value}) else s
  }

  function Started(s: Replay): Replay {
    s.(status := Playing, intervalId := Some(s.nextTimer), nextTimer := s.nextTimer + 1,
       live := s.live[s.nextTimer := Timer(s.candles, Period(s.speed))])
  }

  function Emitted(s: Replay): Replay {
    if s.index >= |s.candles| then s
    else s.(chart := Add(s.chart, s.candles[s.index]), index := s.index + 1)
  }

  function Ticked(s: Replay, captured: seq<Candle>): Replay {
    if s.status != Playing then s
    else if s.index >= |captured| then Cleared(s).(status := Paused, intervalId := None)
    else Emitted(s)
  }

  /** One user action or timer callback. A tick of a timer that is not running is no event at all. */
  function Step(clock: Clock, s: Replay, e: Event): Replay {
    match e
    case Load(input) =>
      Cleared(s).(candles := Sort(ByTime(clock), input), index := 0, status := Idle, intervalId := None,
                  chart := [], base := [])
    case Play =>
      if s.candles == [] then s
      else if s.status == Idle then Started(Cleared(s).(index := 0, chart := [], base := []))
      else Started(Cleared(s))
    case Pause => Cleared(s).(status := Paused, intervalId := None)
    case Resume => if s.status != Paused then s else Started(s)
    case Rewind => Cleared(s).(index := 0, status := Idle, intervalId := None, chart := [], base := [])
    case StepOnce =>
      if s.index >= |s.candles| then s else Emitted(Cleared(s)).(status := Paused, intervalId := None)
    case SetSpeed(requested) =>
      var t := s.(speed := Clamp(requested));
      if s.status == Playing then Started(Cleared(t)) else t
    case Stop => Cleared(s).(status := Idle, index := 0, intervalId := None, base := s.chart)
    case Tick(id) => if id in s.live then Ticked(s, s.live[id].captured) else s
  }

  function Exec(clock: Clock, s: Replay, es: seq<Event>): Replay
    decreases |es|
  {
    if es == [] then s else Exec(clock, Step(clock, s, es[0]), es[1..])
  }

  /** The discipline that ties status, timers, index and chart together. */
  predicate Inv(s: Replay) {
    && s.index <= |s.candles|
    && (s.status == Playing <==> s.intervalId.Some?)
    && (s.intervalId.Some? ==>
          && s.intervalId.value < s.nextTimer
          && s.live == map[s.intervalId.value := Timer(s.candles, Period(s.speed))])
    && (s.intervalId.None? ==> s.live == map[])
    && s.chart == Merge(s.base, s.candles, s.index)
  }

  lemma StepKeepsInv(clock: Clock, s: Replay, e: Event)
    requires Inv(s)
    ensures Inv(Step(clock, s, e))
  {
    hide Period, Clamp, Sort, Add;
    assert Cleared(s).live == map[];
  }

  lemma PeriodIsInverse(speed: Speed)
    ensures Period(speed) * speed == 1000.0 && Period(speed) >= 10.0
  {
    assert (1000.0 / speed) * speed == 1000.0;
    TimesMonotone(1000.0 / speed, 10.0, speed);
  }

  lemma TimesMonotone(p: real, q: real, s: real)
    requires s > 0.0
    ensures p < q <==> p * s < q * s
  {
  }

  /**
   * Over every run, stops included: a live timer plays the stored list, as many candles a second as the speed
   * says, and never more than a hundred.
   */
  lemma TimerFollowsSpeed(clock: Clock, es: seq<Event>, id: nat)
    ensures var t := Exec(clock, INITIAL, es);
      id in t.live ==>
        && t.status == Playing && t.live.Keys == {id} && t.live[id].captured == t.candles
        && t.live[id].periodMs * t.speed == 1000.0 && t.live[id].periodMs >= 10.0
  {
    hide Exec, Period;
    RunKeepsInv(clock, INITIAL, es);
    PeriodIsInverse(Exec(clock, INITIAL, es).speed);
  }

  lemma InversesTurn(p: real, s: real, q: real, t: real)
    requires p * s == 1000.0 && q * t == 1000.0 && 0.0 < s < t && q > 0.0
    ensures q < p
  {
    TimesMonotone(s, t, q);
    assert s * q == q * s && t * q == q * t;
    TimesMonotone(q, p, s);
  }

  /** A higher speed means a shorter period. */
  lemma FasterIsShorter(s: Replay, t: Replay)
    requires Inv(s) && Inv(t) && s.status == Playing && t.status == Playing && s.speed < t.speed
    ensures t.live[t.intervalId.value].periodMs < s.live[s.intervalId.value].periodMs
  {
    hide Period, Merge;
    var p, q := Period(s.speed), Period(t.speed);
    PeriodIsInverse(s.speed);
    PeriodIsInverse(t.speed);
    InversesTurn(p, s.speed, q, t.speed);
  }

  /** Pausing and resuming, at any point of a replay, only changes the timer. */
  lemma PauseThenResume(clock: Clock, s: Replay)
    requires Inv(s)
    ensures var t := Step(clock, Step(clock, s, Pause), Resume);
      && t.status == Playing && Inv(t)
      && t.index == s.index && t.candles == s.candles && t.chart == s.chart && t.speed == s.speed
      && (s.candles != [] ==> Step(clock, Step(clock, s, Pause), Play) == t)
  {
    StepKeepsInv(clock, s, Pause);
    StepKeepsInv(clock, Step(clock, s, Pause), Resume);
    hide Period, Merge;
  }

  predicate NoStop(es: seq<Event>) { Stop !in es }

  /** Every run, with any number of stops: the chart is the merge of the played prefix onto the base. */
  lemma {:induction false} RunKeepsInv(clock: Clock, s: Replay, es: seq<Event>)
    requires Inv(s)
    ensures Inv(Exec(clock, s, es))
    decreases |es|
  {
    if es != [] {
      StepKeepsInv(clock, s, es[0]);
      RunKeepsInv(clock, Step(clock, s, es[0]), es[1..]);
    }
  }

  lemma {:induction false} NoStopKeepsBase(clock: Clock, s: Replay, es: seq<Event>)
    requires s.base == [] && NoStop(es)
    ensures Exec(clock, s, es).base == []
    decreases |es|
  {
    if es != [] { NoStopKeepsBase(clock, Step(clock, s, es[0]), es[1..]); }
  }

  /** Without `stop`, the chart is always the merge of the first `index` candles. */
  lemma ChartIsMergedPrefix(clock: Clock, es: seq<Event>)
    requires NoStop(es)
    ensures var t := Exec(clock, INITIAL, es); t.index <= |t.candles| && t.chart == Merge([], t.candles, t.index)
  {
    RunKeepsInv(clock, INITIAL, es);
    NoStopKeepsBase(clock, INITIAL, es);
  }

  /** Two runs without `stop` that reach the same index on the same data show the same chart. */
  lemma InterleavingIndependence(clock: Clock, es: seq<Event>, fs: seq<Event>)
    requires NoStop(es) && NoStop(fs)
    requires Exec(clock, INITIAL, es).candles == Exec(clock, INITIAL, fs).candles
    requires Exec(clock, INITIAL, es).index == Exec(clock, INITIAL, fs).index
    ensures Exec(clock, INITIAL, es).chart == Exec(clock, INITIAL, fs).chart
  {
    ChartIsMergedPrefix(clock, es);
    ChartIsMergedPrefix(clock, fs);
  }

  lemma {:induction false} MergeEmpty(base: seq<Candle>, cs: seq<Candle>, n: nat)
    requires n <= |cs|
    ensures Merge(base, cs, n) == [] <==> base == [] && n == 0
  {
    if n > 0 { MergeOneMore(base, cs, n - 1); }
  }

  /**
   * `stop` leaves the chart alone. Afterwards the chart shows the (empty) played prefix exactly when
   * nothing had been played, neither since the index was last reset nor before an earlier stop.
   */
  lemma StopLeavesChart(clock: Clock, s: Replay)
    requires Inv(s)
    ensures var t := Step(clock, s, Stop);
      t.chart == Merge([], t.candles, t.index) <==> s.base == [] && s.index == 0
  {
    MergeEmpty(s.base, s.candles, s.index);
  }

  function Ticks(id: nat, n: nat): (r: seq<Event>)
    ensures |r| == n
  {
    if n == 0 then [] else [Tick(id)] + Ticks(id, n - 1)
  }

  lemma ExecCons(clock: Clock, s: Replay, e: Event, es: seq<Event>)
    ensures Exec(clock, s, [e] + es) == Exec(clock, Step(clock, s, e), es)
  {
    assert ([e] + es)[1..] == es;
  }

  lemma ExecOne(clock: Clock, s: Replay, e: Event)
    ensures Exec(clock, s, [e]) == Step(clock, s, e)
  {
    assert [e] == [e] + [];
    ExecCons(clock, s, e, []);
  }

  /** A replay `n` candles further on, with the same timer running. */
  function Advanced(s: Replay, n: nat): Replay
    requires s.index + n <= |s.candles|
  {
    s.(index := s.index + n, chart := Merge(s.base, s.candles, s.index + n))
  }

  lemma MergeOneMore(base: seq<Candle>, cs: seq<Candle>, n: nat)
    requires n < |cs|
    ensures Merge(base, cs, n + 1) == Add(Merge(base, cs, n), cs[n])
  {
  }

  lemma EmitAdvances(s: Replay)
    requires s.index < |s.candles| && s.chart == Merge(s.base, s.candles, s.index)
    ensures Emitted(s) == Advanced(s, 1)
  {
    MergeOneMore(s.base, s.candles, s.index);
    hide Merge, Add;
  }

  lemma TickEmits(clock: Clock, s: Replay)
    requires Inv(s) && s.status == Playing && s.index < |s.candles|
    ensures Step(clock, s, Tick(s.intervalId.value)) == Emitted(s)
  {
    hide Period, Clamp, Sort, Merge, Add, Emitted;
  }

  lemma TickPlays(clock: Clock, s: Replay)
    requires Inv(s) && s.status == Playing && s.index < |s.candles|
    ensures Step(clock, s, Tick(s.intervalId.value)) == Advanced(s, 1)
    ensures Inv(Advanced(s, 1))
  {
    TickEmits(clock, s);
    EmitAdvances(s);
    StepKeepsInv(clock, s, Tick(s.intervalId.value));
    hide Step, Emitted, Merge, Period;
  }

  lemma TickEnds(clock: Clock, s: Replay)
    requires Inv(s) && s.status == Playing && s.index == |s.candles|
    ensures Step(clock, s, Tick(s.intervalId.value)) == s.(status := Paused, intervalId := None, live := map[])
  {
  }

  /** While candles remain, each tick plays one of them and leaves the same timer running. */
  lemma {:induction false} TicksPlay(clock: Clock, s: Replay, n: nat)
    requires Inv(s) && s.status == Playing && s.index + n <= |s.candles|
    ensures Exec(clock, s, Ticks(s.intervalId.value, n)) == Advanced(s, n)
    decreases n
  {
    hide Step;
    if n > 0 {
      var id := s.intervalId.value;
      TickPlays(clock, s);
      ExecCons(clock, s, Tick(id), Ticks(id, n - 1));
      TicksPlay(clock, Advanced(s, 1), n - 1);
    }
  }

  lemma {:induction false} ExecAppend(clock: Clock, s: Replay, es: seq<Event>, fs: seq<Event>)
    ensures Exec(clock, s, es + fs) == Exec(clock, Exec(clock, s, es), fs)
    decreases |es|
  {
    if es == [] {
      assert es + fs == fs;
    } else {
      ExecAppend(clock, Step(clock, s, es[0]), es[1..], fs);
      assert (es + fs)[1..] == es[1..] + fs;
    }
  }

  /**
   * From playing, ticks alone reach paused after exactly `length - index + 1` of them: with every
   * candle played, no timer left, and not one tick earlier.
   */
  lemma TicksReachPaused(clock: Clock, s: Replay, n: nat)
    requires Inv(s) && s.status == Playing && n == |s.candles| - s.index + 1
    ensures var t := Exec(clock, s, Ticks(s.intervalId.value, n));
      && t.status == Paused && t.live == map[] && t.intervalId == None
      && t.index == |s.candles| && t.chart == Merge(s.base, s.candles, |s.candles|)
    ensures forall k: nat :: k < n ==> Exec(clock, s, Ticks(s.intervalId.value, k)).status == Playing
  {
    var id := s.intervalId.value;
    forall k: nat | k < n ensures Exec(clock, s, Ticks(id, k)).status == Playing {
      TicksPlay(clock, s, k);
    }
    TicksPlay(clock, s, n - 1);
    TicksSplit(id, n - 1);
    ExecAppend(clock, s, Ticks(id, n - 1), [Tick(id)]);
    var t := Advanced(s, n - 1);
    assert Inv(t);
    ExecOne(clock, t, Tick(id));
    TickEnds(clock, t);
  }

  lemma {:induction false} TicksSplit(id: nat, n: nat)
    ensures Ticks(id, n + 1) == Ticks(id, n) + [Tick(id)]
  {
    if n > 0 { TicksSplit(id, n - 1); }
  }

  /** Sorting by time is stable, so the last candle with a given timestamp is the last one in the input. */
  lemma SortKeepsLast(clock: Clock, cs: seq<Candle>, timestamp: string)
    ensures LastWith(timestamp, Sort(ByTime(clock), cs)) == LastWith(timestamp, cs)
  {
    var le := ByTime(clock);
    SortCorrect(le, cs);
    var probe := Candle(timestamp, 0.0, 0.0, 0.0, 0.0, 0.0);
    LastWithTies(clock, cs, probe);
    LastWithTies(clock, Sort(le, cs), probe);
  }

  lemma {:induction false} LastWithTies(clock: Clock, cs: seq<Candle>, probe: Candle)
    ensures LastWith(probe.timestamp, Ties(ByTime(clock), probe, cs)) == LastWith(probe.timestamp, cs)
  {
    if cs != [] {
      LastWithTies(clock, cs[1..], probe);
      var rest := Ties(ByTime(clock), probe, cs[1..]);
      assert ([cs[0]] + rest)[1..] == rest;
    }
  }

  lemma ReplayCovers(clock: Clock, input: seq<Candle>, timestamp: string)
    ensures HasTimestamp(timestamp, MergeAll(Sort(ByTime(clock), input))) <==> HasTimestamp(timestamp, input)
  {
    hide Sort, Merge, ByTime;
    var sorted := Sort(ByTime(clock), input);
    SortedInput(clock, input);
    hide Ascending, OneTextPerInstant;
    MergeSubset(sorted, |sorted|);
    if HasTimestamp(timestamp, input) {
      var c :| c in input && c.timestamp == timestamp;
      var k :| 0 <= k < |sorted| && sorted[k] == c;
      MergeCovers(sorted, |sorted|, k);
    }
  }

  lemma ReplayKeepsLast(clock: Clock, input: seq<Candle>, c: Candle)
    requires OneTextPerInstant(clock, input) && c in MergeAll(Sort(ByTime(clock), input))
    ensures LastWith(c.timestamp, input) == Some(c)
  {
    hide Sort, Merge, ByTime, LastWith;
    var sorted := Sort(ByTime(clock), input);
    SortedInput(clock, input);
    hide Ascending, OneTextPerInstant;
    MergeKeepsLast(clock, sorted, |sorted|, c);
    assert sorted[..|sorted|] == sorted;
    SortKeepsLast(clock, input, c.timestamp);
  }

  /**
   * A complete replay of any candle list, unsorted and with duplicates. The chart is strictly ascending
   * in time exactly when no instant is written in two ways in the input; and then it holds one candle
   * per timestamp of the input, namely the last one the input has for it.
   */
  lemma CompleteReplay(clock: Clock, input: seq<Candle>)
    requires input != []
    ensures var t := Exec(clock, INITIAL, [Load(input), Play] + Ticks(0, |input| + 1));
      && t.status == Paused && t.index == |input|
      && (StrictlyAscending(clock, t.chart) <==> OneTextPerInstant(clock, input))
      && (OneTextPerInstant(clock, input) ==>
            && (forall timestamp :: HasTimestamp(timestamp, t.chart) <==> HasTimestamp(timestamp, input))
            && (forall c :: c in t.chart ==> LastWith(c.timestamp, input) == Some(c)))
  {
    var chart := MergeAll(Sort(ByTime(clock), input));
    PlayThrough(clock, input);
    SortedInput(clock, input);
    MergeAscends(clock, Sort(ByTime(clock), input));
    hide *;
    forall timestamp ensures HasTimestamp(timestamp, chart) <==> HasTimestamp(timestamp, input) {
      ReplayCovers(clock, input, timestamp);
    }
    if OneTextPerInstant(clock, input) {
      forall c | c in chart ensures LastWith(c.timestamp, input) == Some(c) { ReplayKeepsLast(clock, input, c); }
    }
  }

  lemma SortedInput(clock: Clock, input: seq<Candle>)
    ensures var sorted := Sort(ByTime(clock), input);
      && |sorted| == |input| && Ascending(clock, sorted) && multiset(sorted) == multiset(input)
      && (forall c :: c in sorted <==> c in input)
      && (OneTextPerInstant(clock, sorted) <==> OneTextPerInstant(clock, input))
  {
    var sorted := Sort(ByTime(clock), input);
    SortCorrect(ByTime(clock), input);
    assert |sorted| == |multiset(sorted)| == |multiset(input)| == |input|;
    forall c ensures c in sorted <==> c in input {
      assert c in multiset(sorted) <==> c in multiset(input);
    }
    forall i, j | 0 <= i < j < |sorted|
      ensures clock(sorted[i].timestamp) <= clock(sorted[j].timestamp)
    {
      assert ByTime(clock)(sorted[i], sorted[j]);
    }
  }

  /** The state right after loading and pressing play. */
  function JustPlaying(clock: Clock, input: seq<Candle>): Replay {
    var sorted := Sort(ByTime(clock), input);
    INITIAL.(candles := sorted, status := Playing, intervalId := Some(0), nextTimer := 1,
             live := map[0 := Timer(sorted, Period(INITIAL.speed))])
  }

  lemma LoadThenPlay(clock: Clock, input: seq<Candle>)
    requires input != []
    ensures Step(clock, Step(clock, INITIAL, Load(input)), Play) == JustPlaying(clock, input)
    ensures Inv(JustPlaying(clock, input))
  {
    hide Sort, Exec;
    SortedInput(clock, input);
  }

  lemma PlayThrough(clock: Clock, input: seq<Candle>)
    requires input != []
    ensures var t := Exec(clock, INITIAL, [Load(input), Play] + Ticks(0, |input| + 1));
      t.status == Paused && t.index == |input| && t.chart == MergeAll(Sort(ByTime(clock), input))
  {
    hide Step, Exec, Ticks, Sort, Merge;
    SortedInput(clock, input);
    LoadThenPlay(clock, input);
    var ticks := Ticks(0, |input| + 1);
    assert [Load(input), Play] + ticks == [Load(input)] + ([Play] + ticks);
    ExecCons(clock, INITIAL, Load(input), [Play] + ticks);
    ExecCons(clock, Step(clock, INITIAL, Load(input)), Play, ticks);
    TicksReachPaused(clock, JustPlaying(clock, input), |input| + 1);
  }

  lemma LiveTimer(s: Replay, id: nat)
    requires Inv(s) && id in s.live
    ensures s.status == Playing && s.intervalId == Some(id) && s.live[id].captured == s.candles && s.index <= |s.candles|
    ensures s.live - {id} == map[]
  {
    hide Merge, Period;
  }

  lemma Keeps(clock: Clock, s: Replay, e: Event)
    requires Inv(s)
    ensures var t := Step(clock, s, e); Inv(t) && (t.intervalId == None ==> t.live == map[])
  {
    StepKeepsInv(clock, s, e);
    hide Step, Merge;
  }

  /** The store itself, with the host's interval timers; `base` is kept for the specification only. */
  class ReplayStore {
    const clock: Clock
    const chart: ChartStore
    var status: Status
    var speed: Speed
    var currentIndex: nat
    var historicalCandles: seq<Candle>
    var intervalId: Option<nat>
    var live: map<nat, Timer>
    var nextTimer: nat
    ghost var base: seq<Candle>

    ghost function State(): Replay
      reads this, chart
    {
      Replay(status, speed, currentIndex, historicalCandles, intervalId, live, nextTimer, chart.candles, base)
    }

    ghost predicate Valid()
      reads this, chart
    {
      Inv(State())
    }

    constructor (clock: Clock, chart: ChartStore)
      requires chart.candles == []
      ensures State() == INITIAL && Valid()
      ensures this.clock == clock && this.chart == chart
    {
      this.clock, this.chart := clock, chart;
      status, speed, currentIndex, historicalCandles, intervalId := Idle, 1.0, 0, [], None;
      live, nextTimer, base := map[], 0, [];
    }

    method EmitCandle() returns (next: nat)
      modifies chart
      ensures chart.candles == Emitted(old(State())).chart && next == Emitted(old(State())).index
    {
      if currentIndex >= |historicalCandles| { return currentIndex; }
      var candle := historicalCandles[currentIndex];
      chart.AddCandle(candle);
      next := currentIndex + 1;
    }

    method ClearTimer()
      modifies this`live
      ensures State() == Cleared(old(State()))
    {
      if intervalId.Some? { live := live - {intervalId.value}; }
    }

    method StartTimer() returns (id: nat)
      modifies this`live, this`nextTimer
      ensures id == old(nextTimer) && nextTimer == id + 1
      ensures live == old(live)[id := Timer(historicalCandles, Period(speed))]
    {
      var intervalMs := Max(10.0, 1000.0 / speed);
      id := nextTimer;
      nextTimer := nextTimer + 1;
      live := live[id := Timer(historicalCandles, intervalMs)];
    }

    /** The callback of a running interval timer. */
    method OnInterval(id: nat)
      requires Valid() && id in live
      modifies this, chart
      ensures Valid() && State() == Step(clock, old(State()), Tick(id))
      ensures speed == old(speed) && historicalCandles == old(historicalCandles)
      ensures old(currentIndex) < |historicalCandles| ==>
                && status == Playing && intervalId == old(intervalId) && live == old(live)
                && currentIndex == old(currentIndex) + 1
                && chart.candles != [] && chart.candles[|chart.candles| - 1] == historicalCandles[old(currentIndex)]
      ensures old(currentIndex) == |historicalCandles| ==>
                && status == Paused && live == map[] && currentIndex == old(currentIndex)
                && chart.candles == old(chart.candles)
    {
      hide Period, Sort, Inv, Merge, Add;
      Keeps(clock, State(), Tick(id));
      LiveTimer(State(), id);
      var captured := live[id].captured;
      if status != Playing { return; }
      if currentIndex >= |captured| {
        ClearTimer();
        status, intervalId := Paused, None;
        return;
      }
      var next := EmitCandle();
      currentIndex := next;
    }

    method LoadCandles(input: seq<Candle>)
      requires Valid()
      modifies this, chart
      ensures Valid() && State() == Step(clock, old(State()), Event.Load(input))
      ensures status == Idle && currentIndex == 0 && chart.candles == [] && live == map[] && speed == old(speed)
      ensures multiset(historicalCandles) == multiset(input) && Ascending(clock, historicalCandles)
    {
      hide Period, Sort, Inv, Merge, Add, Ascending, OneTextPerInstant;
      Keeps(clock, State(), Event.Load(input));
      SortedInput(clock, input);
      ClearTimer();
      var sorted := Sort(ByTime(clock), input);
      chart.SetCandles([]);
      base := [];
      historicalCandles, currentIndex, status, intervalId := sorted, 0, Idle, None;
    }

    method Play()
      requires Valid()
      modifies this, chart
      ensures Valid() && State() == Step(clock, old(State()), Event.Play)
      ensures speed == old(speed) && historicalCandles == old(historicalCandles)
      ensures historicalCandles == [] ==> State() == old(State())
      ensures historicalCandles != [] ==>
                && status == Playing && intervalId == Some(old(nextTimer))
                && currentIndex == (if old(status) == Idle then 0 else old(currentIndex))
                && chart.candles == (if old(status) == Idle then [] else old(chart.candles))
    {
      hide Period, Sort, Inv, Merge, Add;
      Keeps(clock, State(), Event.Play);
      if |historicalCandles| == 0 { return; }
      ClearTimer();
      if status == Idle {
        chart.SetCandles([]);
        base := [];
        currentIndex := 0;
      }
      status := Playing;
      var id := StartTimer();
      intervalId := Some(id);
    }

    method Pause()
      requires Valid()
      modifies this
      ensures Valid() && State() == Step(clock, old(State()), Event.Pause)
      ensures status == Paused && live == map[] && intervalId == None
      ensures currentIndex == old(currentIndex) && speed == old(speed) && historicalCandles == old(historicalCandles)
    {
      hide Period, Sort, Inv, Merge, Add;
      Keeps(clock, State(), Event.Pause);
      ClearTimer();
      status, intervalId := Paused, None;
    }

    method Resume()
      requires Valid()
      modifies this
      ensures Valid() && State() == Step(clock, old(State()), Event.Resume)
      ensures currentIndex == old(currentIndex) && speed == old(speed) && historicalCandles == old(historicalCandles)
      ensures old(status) != Paused ==> State() == old(State())
      ensures old(status) == Paused ==> status == Playing && intervalId == Some(old(nextTimer))
    {
      hide Period, Sort, Inv, Merge, Add;
      Keeps(clock, State(), Event.Resume);
      if status != Paused { return; }
      status := Playing;
      var id := StartTimer();
      intervalId := Some(id);
    }

    method Rewind()
      requires Valid()
      modifies this, chart
      ensures Valid() && State() == Step(clock, old(State()), Event.Rewind)
      ensures status == Idle && currentIndex == 0 && chart.candles == [] && live == map[]
      ensures speed == old(speed) && historicalCandles == old(historicalCandles)
    {
      hide Period, Sort, Inv, Merge, Add;
      Keeps(clock, State(), Event.Rewind);
      ClearTimer();
      chart.SetCandles([]);
      base := [];
      currentIndex, status, intervalId := 0, Idle, None;
    }

    method StepForward()
      requires Valid()
      modifies this, chart
      ensures Valid() && State() == Step(clock, old(State()), StepOnce)
      ensures speed == old(speed) && historicalCandles == old(historicalCandles)
      ensures old(currentIndex) == |historicalCandles| ==> State() == old(State())
      ensures old(currentIndex) < |historicalCandles| ==>
                && status == Paused && live == map[] && currentIndex == old(currentIndex) + 1
                && chart.candles != [] && chart.candles[|chart.candles| - 1] == historicalCandles[old(currentIndex)]
    {
      hide Period, Sort, Inv, Merge, Add;
      Keeps(clock, State(), StepOnce);
      if currentIndex >= |historicalCandles| { return; }
      ClearTimer();
      var next := EmitCandle();
      currentIndex, status, intervalId := next, Paused, None;
    }

    method SetSpeed(requested: real)
      requires Valid()
      modifies this
      ensures Valid() && State() == Step(clock, old(State()), Event.SetSpeed(requested))
      ensures speed == if requested < 1.0 then 1.0 else if requested > 100.0 then 100.0 else requested
      ensures status == old(status) && currentIndex == old(currentIndex) && historicalCandles == old(historicalCandles)
      ensures status == Playing ==> intervalId == Some(old(nextTimer)) && old(nextTimer) in live
                                    && live[old(nextTimer)].periodMs * speed == 1000.0
    {
      hide Period, Sort, Inv, Merge, Add;
      Keeps(clock, State(), Event.SetSpeed(requested));
      speed := Max(1.0, Min(100.0, requested));
      PeriodIsInverse(speed);
      if status == Playing {
        ClearTimer();
        var id := StartTimer();
        intervalId := Some(id);
      }
    }

    method Stop()
      requires Valid()
      modifies this
      ensures Valid() && State() == Step(clock, old(State()), Event.Stop)
      ensures status == Idle && currentIndex == 0 && live == map[]
      ensures speed == old(speed) && historicalCandles == old(historicalCandles)
    {
      hide Period, Sort, Inv, Merge, Add;
      Keeps(clock, State(), Event.Stop);
      ClearTimer();
      status, currentIndex, intervalId := Idle, 0, None;
      base := chart.candles;
    }
  }
}
