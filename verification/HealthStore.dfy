/** System health: circuit breakers with their warning banner, and consumer lags as an association list. */
module HealthStore {
  import opened Seqs

  datatype Breaker = Breaker(name: string, service: string, state: string, lastStateChange: string)
  datatype Lag = Lag(stream: string, group: string, lag: nat, threshold: nat, timestamp: string)

  datatype Health = Health(breakers: seq<Breaker>, lags: seq<Lag>, banner: bool)

  /** A snapshot carries the breakers it could fetch, or `None`; a snapshot that throws changes nothing here. */
  datatype Event =
    | Snapshot(local: seq<Breaker>, remote: seq<Breaker>, fetched: bool) | SnapshotThrew
    | BreakerChange(name: string, newState: string, timestamp: string)
    | LagAlert(payload: Lag)

  const INITIAL := Health([], [], false)

  predicate IsOpen(b: Breaker) { b.state == "open" }

  /** At least one breaker is open. */
  predicate AnyOpen(bs: seq<Breaker>) { exists i :: 0 <= i < |bs| && IsOpen(bs[i]) }

  function Updated(bs: seq<Breaker>, name: string, newState: string, timestamp: string): (r: seq<Breaker>)
    ensures |r| == |bs|
    ensures forall i :: 0 <= i < |bs| ==>
      r[i] == if bs[i].name == name then bs[i].(state := newState, lastStateChange := timestamp) else bs[i]
  {
    if bs == [] then []
    else
      [if bs[0].name == name then bs[0].(state := newState, lastStateChange := timestamp) else bs[0]]
      + Updated(bs[1..], name, newState, timestamp)
  }

  predicate SameKey(l: Lag, stream: string, group: string) { l.stream == stream && l.group == group }

  function Others(lags: seq<Lag>, stream: string, group: string): (r: seq<Lag>)
    ensures forall l :: l in r <==> l in lags && !SameKey(l, stream, group)
  {
    if lags == [] then []
    else
      var rest := Others(lags[1..], stream, group);
      if SameKey(lags[0], stream, group) then rest else [lags[0]] + rest
  }

  function Step(h: Health, e: Event): Health {
    match e
    case Snapshot(local, remote, fetched) =>
      var all := if fetched then local + remote else [];
      h.(breakers := all, banner := AnyOpen(all))
    case SnapshotThrew => h
    case BreakerChange(name, newState, timestamp) =>
      var updated := Updated(h.breakers, name, newState, timestamp);
      h.(breakers := updated, banner := AnyOpen(updated))
    case LagAlert(payload) => h.(lags := Others(h.lags, payload.stream, payload.group) + [payload])
  }

  function Exec(h: Health, es: seq<Event>): Health
    decreases |es|
  {
    if es == [] then h else Exec(Step(h, es[0]), es[1..])
  }

  // ----- The banner -----

  /** Over every run, the warning banner shows exactly while some stored breaker is open. */
  lemma {:induction false} BannerTellsOpen(h: Health, es: seq<Event>)
    requires h.banner <==> AnyOpen(h.breakers)
    ensures var t := Exec(h, es);
      && (t.banner <==> AnyOpen(t.breakers))
      && (t.banner <==> exists i :: 0 <= i < |t.breakers| && t.breakers[i].state == "open")
    decreases |es|
  {
    if es != [] { BannerTellsOpen(Step(h, es[0]), es[1..]); }
  }

  // ----- The breakers -----

  /** The state and time that the last change of the breaker named `name` gives it. */
  function LastChange(name: string, before: (string, string), es: seq<Event>): (string, string)
    decreases |es|
  {
    if es == [] then before
    else if es[0].BreakerChange? && es[0].name == name
    then LastChange(name, (es[0].newState, es[0].timestamp), es[1..])
    else LastChange(name, before, es[1..])
  }

  predicate NoSnapshot(es: seq<Event>) { forall i :: 0 <= i < |es| ==> !es[i].Snapshot? }

  lemma {:induction false} ChangesApply(h: Health, es: seq<Event>)
    requires NoSnapshot(es)
    ensures var t := Exec(h, es);
      && |t.breakers| == |h.breakers|
      && forall i :: 0 <= i < |h.breakers| ==>
           var b, c := h.breakers[i], t.breakers[i];
           && c.name == b.name && c.service == b.service
           && (c.state, c.lastStateChange) == LastChange(b.name, (b.state, b.lastStateChange), es)
    decreases |es|
  {
    hide Others, AnyOpen;
    if es != [] { ChangesApply(Step(h, es[0]), es[1..]); }
  }

  /**
   * After a snapshot and any run without another one, the stored breakers are those of the snapshot, the local
   * ones first, each in the state of its last change since. A snapshot that could not fetch them stores none.
   */
  lemma BreakersAreCurrent(h: Health, local: seq<Breaker>, remote: seq<Breaker>, fetched: bool, es: seq<Event>)
    requires NoSnapshot(es)
    ensures var all, t := if fetched then local + remote else [], Exec(Step(h, Snapshot(local, remote, fetched)), es);
      && |t.breakers| == |all|
      && forall i :: 0 <= i < |all| ==>
           && t.breakers[i].name == all[i].name && t.breakers[i].service == all[i].service
           && (t.breakers[i].state, t.breakers[i].lastStateChange) ==
                LastChange(all[i].name, (all[i].state, all[i].lastStateChange), es)
  {
    ChangesApply(Step(h, Snapshot(local, remote, fetched)), es);
    hide Exec, LastChange, AnyOpen;
  }

  // ----- The lag list is a map -----

  type LagKey = (string, string)

  function KeyOf(l: Lag): LagKey { (l.stream, l.group) }

  /** The map that the list stands for: for each key, the latest payload of the run. */
  function LatestLags(before: map<LagKey, Lag>, es: seq<Event>): map<LagKey, Lag>
    decreases |es|
  {
    if es == [] then before
    else if es[0].LagAlert? then LatestLags(before[KeyOf(es[0].payload) := es[0].payload], es[1..])
    else LatestLags(before, es[1..])
  }

  ghost predicate UniqueKeys(lags: seq<Lag>) {
    forall i, j :: 0 <= i < j < |lags| ==> KeyOf(lags[i]) != KeyOf(lags[j])
  }

  /** A list with unique keys that holds exactly the entries of `m`. */
  ghost predicate Represents(lags: seq<Lag>, m: map<LagKey, Lag>) {
    && UniqueKeys(lags)
    && (forall l :: l in lags <==> KeyOf(l) in m && m[KeyOf(l)] == l)
    && (forall k :: k in m ==> KeyOf(m[k]) == k)
  }

  lemma {:induction false} OthersKeepsKeys(lags: seq<Lag>, stream: string, group: string)
    requires UniqueKeys(lags)
    ensures UniqueKeys(Others(lags, stream, group))
  {
    if lags != [] {
      OthersKeepsKeys(lags[1..], stream, group);
      forall l | l in Others(lags[1..], stream, group) ensures KeyOf(l) != KeyOf(lags[0]) {
        assert l in lags[1..];
      }
    }
  }

  lemma AlertKeepsMap(lags: seq<Lag>, m: map<LagKey, Lag>, payload: Lag)
    requires Represents(lags, m)
    ensures Represents(Others(lags, payload.stream, payload.group) + [payload], m[KeyOf(payload) := payload])
  {
    var others := Others(lags, payload.stream, payload.group);
    var list, m' := others + [payload], m[KeyOf(payload) := payload];
    OthersKeepsKeys(lags, payload.stream, payload.group);
    forall l ensures l in list <==> KeyOf(l) in m' && m'[KeyOf(l)] == l {
      assert l in list <==> l in others || l == payload;
    }
    forall i | 0 <= i < |others| ensures KeyOf(others[i]) != KeyOf(payload) {
      assert others[i] in others;
    }
    assert UniqueKeys(list);
  }

  /** Over every run, the lag list holds one entry per (stream, group): the latest payload for it. */
  lemma {:induction false} LagsRefineMap(h: Health, m: map<LagKey, Lag>, es: seq<Event>)
    requires Represents(h.lags, m)
    ensures Represents(Exec(h, es).lags, LatestLags(m, es))
    decreases |es|
  {
    hide Represents, Updated, Others;
    if es != [] {
      if es[0].LagAlert? {
        AlertKeepsMap(h.lags, m, es[0].payload);
        LagsRefineMap(Step(h, es[0]), m[KeyOf(es[0].payload) := es[0].payload], es[1..]);
      } else {
        LagsRefineMap(Step(h, es[0]), m, es[1..]);
      }
    }
  }

  lemma {:induction false} OthersIsFilter(lags: seq<Lag>, stream: string, group: string)
    ensures Others(lags, stream, group) == Filter((l: Lag) => l.stream != stream || l.group != group, lags)
  {
    if lags != [] { OthersIsFilter(lags[1..], stream, group); }
  }

  lemma {:induction false} OthersAbsent(lags: seq<Lag>, stream: string, group: string)
    requires forall l :: l in lags ==> !SameKey(l, stream, group)
    ensures Others(lags, stream, group) == lags
  {
    if lags != [] { OthersAbsent(lags[1..], stream, group); }
  }

  lemma {:induction false} OthersAppend(lags: seq<Lag>, l: Lag)
    ensures Others(lags + [l], l.stream, l.group) == Others(lags, l.stream, l.group)
  {
    if lags == [] {
      assert lags + [l] == [l] && [l][1..] == [];
    } else {
      OthersAppend(lags[1..], l);
      assert (lags + [l])[1..] == lags[1..] + [l];
    }
  }

  /** Delivering any message a second time in a row has no effect. */
  lemma DuplicateDelivery(h: Health, e: Event)
    ensures Step(Step(h, e), e) == Step(h, e)
  {
    match e
    case LagAlert(l) =>
      var others := Others(h.lags, l.stream, l.group);
      OthersAppend(others, l);
      OthersAbsent(others, l.stream, l.group);
    case BreakerChange(name, newState, timestamp) =>
      var once := Updated(h.breakers, name, newState, timestamp);
      assert Updated(once, name, newState, timestamp) == once;
    case _ =>
  }

  /**
   * Delivering an alert again after any run, with others in between, leaves the represented map as it is
   * exactly when that alert is still the latest one for its stream and group.
   */
  lemma LateRedelivery(h: Health, m: map<LagKey, Lag>, es: seq<Event>, payload: Lag)
    requires Represents(h.lags, m)
    ensures var latest := LatestLags(m, es);
      Represents(Step(Exec(h, es), LagAlert(payload)).lags, latest) <==>
        KeyOf(payload) in latest && latest[KeyOf(payload)] == payload
  {
    LagsRefineMap(h, m, es);
    var lags, latest := Exec(h, es).lags, LatestLags(m, es);
    AlertKeepsMap(lags, latest, payload);
    hide Exec, LatestLags, Others;
    var list := Step(Exec(h, es), LagAlert(payload)).lags;
    assert list[|list| - 1] == payload;
    if KeyOf(payload) in latest && latest[KeyOf(payload)] == payload {
      assert latest[KeyOf(payload) := payload] == latest;
    }
  }

  class HealthStore {
    var circuitBreakers: seq<Breaker>
    var consumerLags: seq<Lag>
    var warningBannerVisible: bool

    ghost function State(): Health
      reads this
    {
      Health(circuitBreakers, consumerLags, warningBannerVisible)
    }

    ghost predicate Valid()
      reads this
    {
      warningBannerVisible <==> AnyOpen(circuitBreakers)
    }

    constructor ()
      ensures Valid() && State() == INITIAL
    {
      circuitBreakers, consumerLags, warningBannerVisible := [], [], false;
    }

    method UpdateCircuitBreakerState(name: string, newState: string, timestamp: string)
      requires Valid()
      modifies this
      ensures Valid() && State() == Step(old(State()), BreakerChange(name, newState, timestamp))
      ensures consumerLags == old(consumerLags)
      ensures warningBannerVisible <==> exists i :: 0 <= i < |circuitBreakers| && circuitBreakers[i].state == "open"
    {
      var updated := Updated(circuitBreakers, name, newState, timestamp);
      var hasOpen := AnyOpen(updated);
      circuitBreakers, warningBannerVisible := updated, hasOpen;
    }

    method UpdateConsumerLag(payload: Lag)
      requires Valid()
      modifies this
      ensures Valid() && State() == Step(old(State()), LagAlert(payload))
      ensures circuitBreakers == old(circuitBreakers) && warningBannerVisible == old(warningBannerVisible)
      ensures consumerLags ==
        Filter((l: Lag) => l.stream != payload.stream || l.group != payload.group, old(consumerLags)) + [payload]
    {
      var existing := Others(consumerLags, payload.stream, payload.group);
      OthersIsFilter(consumerLags, payload.stream, payload.group);
      consumerLags := existing + [payload];
    }

    method OnSnapshot(local: seq<Breaker>, remote: seq<Breaker>, fetched: bool)
      requires Valid()
      modifies this
      ensures Valid() && State() == Step(old(State()), Snapshot(local, remote, fetched))
      ensures circuitBreakers == (if fetched then local + remote else []) && consumerLags == old(consumerLags)
    {
      var allBreakers: seq<Breaker> := [];
      if fetched { allBreakers := local + remote; }
      circuitBreakers, warningBannerVisible := allBreakers, AnyOpen(allBreakers);
    }
  }
}
