/** The reconnect state machine of the dashboard: sockets, one timer, exponential backoff, wake-ups, shutdown. */
module WebSocketManager {
  import opened Seqs

  const INITIAL_RECONNECT_DELAY: nat := 1000
  const MAX_RECONNECT_DELAY: nat := 30000
  const BACKOFF_MULTIPLIER: nat := 2

  datatype Phase = Handshake | Connected | Closed

  /** A socket that was created; `listening` says that the manager's handlers are still attached. */
  datatype Socket = Socket(phase: Phase, listening: bool)

  datatype Status = Online | Offline | Reconnecting

  /** The host: every socket ever created, by number, and the armed timeouts with their delays. */
  datatype Host = Host(sockets: seq<Socket>, timers: map<nat, nat>, nextTimer: nat)

  datatype Manager = Manager(
    host: Host, socket: Option<nat>, timer: Option<nat>, delay: nat, manual: bool, status: Status)

  datatype Event =
    | Connect | Disconnect | Wake | Fire(timer: nat)
    | Opened(socket: nat) | Refused(socket: nat) | Dropped(socket: nat)

  const INITIAL := Manager(Host([], map[], 0), None, None, INITIAL_RECONNECT_DELAY, false, Offline)

  function Min(a: nat, b: nat): nat { if a < b then a else b }

  predicate IsConnected(m: Manager) {
    m.socket.Some? && m.socket.value < |m.host.sockets| && m.host.sockets[m.socket.value].phase == Connected
  }

  function TimerCleared(m: Manager): Manager {
    if m.timer.None? then m
    else m.(host := m.host.(timers := m.host.timers - {m.timer.value}), timer := None)
  }

  /** `connect()`: a new socket with handlers, in handshake, unless the current one is connected. */
  function Connecting(m: Manager): Manager {
    if IsConnected(m) then m
    else
      var c := TimerCleared(m);
      c.(host := c.host.(sockets := c.host.sockets + [Socket(Handshake, true)]),
         socket := Some(|c.host.sockets|), manual := false, status := Reconnecting)
  }

  /** Detach the handlers of the current socket, close it and forget it. */
  function TornDown(m: Manager): Manager {
    if m.socket.None? || |m.host.sockets| <= m.socket.value then m.(socket := None)
    else m.(host := m.host.(sockets := m.host.sockets[m.socket.value := Socket(Closed, false)]), socket := None)
  }

  function Recreated(m: Manager): Manager { Connecting(TornDown(m)) }

  function Woken(m: Manager): Manager {
    if m.manual || IsConnected(m) then m
    else Recreated(TimerCleared(m.(delay := INITIAL_RECONNECT_DELAY)))
  }

  function Disconnected(m: Manager): Manager {
    TornDown(TimerCleared(m.(manual := true))).(status := Offline)
  }

  /** `scheduleReconnect()`: re-arm the one timer with the current delay. */
  function Scheduled(m: Manager): Manager {
    var c := TimerCleared(m);
    c.(host := c.host.(timers := c.host.timers[c.host.nextTimer := c.delay], nextTimer := c.host.nextTimer + 1),
       timer := Some(c.host.nextTimer), status := Reconnecting)
  }

  function Fired(m: Manager, t: nat): Manager {
    Recreated(m.(host := m.host.(timers := m.host.timers - {t}),
                 delay := Min(m.delay * BACKOFF_MULTIPLIER, MAX_RECONNECT_DELAY)))
  }

  function WithPhase(m: Manager, i: nat, p: Phase): Manager
    requires i < |m.host.sockets|
  {
    m.(host := m.host.(sockets := m.host.sockets[i := m.host.sockets[i].(phase := p)]))
  }

  function OpenedBy(m: Manager, i: nat): Manager {
    if |m.host.sockets| <= i || m.host.sockets[i].phase != Handshake then m
    else
      var w := WithPhase(m, i, Connected);
      if w.host.sockets[i].listening then w.(delay := INITIAL_RECONNECT_DELAY, status := Online) else w
  }

  function RefusedBy(m: Manager, i: nat): Manager {
    if |m.host.sockets| <= i || m.host.sockets[i].phase == Connected then m
    else
      var w := WithPhase(m, i, Closed);
      if w.host.sockets[i].listening && !w.manual then Scheduled(w) else w
  }

  function DroppedBy(m: Manager, i: nat): Manager {
    if |m.host.sockets| <= i || m.host.sockets[i].phase == Handshake then m
    else
      var w := WithPhase(m, i, Closed);
      if w.host.sockets[i].listening
      then var o := w.(status := Offline); if o.manual then o else Scheduled(o)
      else w
  }

  /**
   * One call or event. A closed socket may report any number of further errors and drops; a timer that is
   * not armed does not fire.
   */
  function Step(m: Manager, e: Event): Manager {
    match e
    case Connect => Connecting(m)
    case Disconnect => Disconnected(m)
    case Wake => Woken(m)
    case Fire(t) => if t in m.host.timers then Fired(m, t) else m
    case Opened(i) => OpenedBy(m, i)
    case Refused(i) => RefusedBy(m, i)
    case Dropped(i) => DroppedBy(m, i)
  }

  function Exec(m: Manager, es: seq<Event>): Manager
    decreases |es|
  {
    if es == [] then m else Exec(Step(m, es[0]), es[1..])
  }

  // ----- Never stuck -----

  /** All but the current socket are closed and without handlers, and nothing but the manager's timer is armed. */
  ghost predicate Tidy(m: Manager) {
    && (forall i :: 0 <= i < |m.host.sockets| && m.socket != Some(i) ==> m.host.sockets[i] == Socket(Closed, false))
    && (m.socket.Some? ==> m.socket.value < |m.host.sockets| && m.host.sockets[m.socket.value].listening)
    && m.host.timers == (if m.timer.Some? then map[m.timer.value := m.delay] else map[])
    && (m.timer.Some? ==> m.timer.value < m.host.nextTimer)
  }

  /** The situation of a tidy manager, with the status that the user is shown. */
  predicate Situation(m: Manager) {
    match m.socket
    case None => m.timer.None? && m.status == Offline && (m.manual || m.host.sockets == [])
    case Some(i) =>
      && i < |m.host.sockets| && !m.manual
      && match m.host.sockets[i].phase
         case Connected => m.timer.None? && m.status == Online
         case Handshake => m.timer.None? && m.status == Reconnecting
         case Closed => m.timer.Some? && m.status == Reconnecting
  }

  ghost predicate Inv(m: Manager) { Tidy(m) && Situation(m) }

  /** The pairing that the layout keeps: `connect()` is called with no socket, or a connected one. */
  predicate Paired(m: Manager, e: Event) { e.Connect? ==> m.socket.None? || IsConnected(m) }

  predicate PairedRun(m: Manager, es: seq<Event>)
    decreases |es|
  {
    es != [] ==> Paired(m, es[0]) && PairedRun(Step(m, es[0]), es[1..])
  }

  /** From a manager without socket and timer, `connect()` reaches a handshake. */
  lemma ConnectingFresh(m: Manager)
    requires Tidy(m) && m.socket.None? && m.timer.None?
    ensures var c := Connecting(m);
      && Tidy(c) && Situation(c) && c.delay == m.delay
      && c.socket == Some(|m.host.sockets|) && !c.manual
  {
  }

  lemma TornDownTidy(m: Manager)
    requires Tidy(m)
    ensures var t := TornDown(m); Tidy(t) && t == m.(host := t.host, socket := None)
    ensures TornDown(m).host == m.host.(sockets := TornDown(m).host.sockets)
  {
  }

  lemma TimerClearedTidy(m: Manager, delay: nat)
    requires Tidy(m)
    ensures var t := TimerCleared(m.(delay := delay)); Tidy(t) && t == m.(host := t.host, timer := None, delay := delay)
    ensures TimerCleared(m).host == m.host.(timers := map[])
  {
  }

  lemma ScheduledInv(m: Manager)
    requires Tidy(m) && m.socket.Some? && !m.manual && m.host.sockets[m.socket.value].phase == Closed
    ensures var t := Scheduled(m); Tidy(t) && Situation(t) && t.delay == m.delay
  {
  }

  lemma ConnectKeepsInv(m: Manager)
    requires Inv(m) && Paired(m, Connect)
    ensures Inv(Connecting(m))
  {
    if m.socket.None? { ConnectingFresh(m); }
  }

  /** The pairing is exact: a public `connect()` keeps the invariant when, and only when, it is respected. */
  lemma PairingIsExact(m: Manager)
    requires Inv(m)
    ensures Inv(Connecting(m)) <==> Paired(m, Connect)
  {
    if m.socket.None? {
      ConnectingFresh(m);
    } else if !IsConnected(m) {
      var c := Connecting(m);
      assert c.host.sockets[m.socket.value].listening && c.socket != m.socket;
    }
  }

  lemma DisconnectKeepsInv(m: Manager)
    requires Inv(m)
    ensures Inv(Disconnected(m))
  {
    var n := m.(manual := true);
    TimerClearedTidy(n, n.delay);
    TornDownTidy(TimerCleared(n));
  }

  lemma WakeKeepsInv(m: Manager)
    requires Inv(m)
    ensures Inv(Woken(m))
  {
    TimerClearedTidy(m, INITIAL_RECONNECT_DELAY);
    var c := TimerCleared(m.(delay := INITIAL_RECONNECT_DELAY));
    TornDownTidy(c);
    ConnectingFresh(TornDown(c));
  }

  lemma FireKeepsInv(m: Manager, t: nat)
    requires Inv(m) && t in m.host.timers
    ensures Inv(Fired(m, t))
  {
    var n := m.(host := m.host.(timers := map[]), timer := None,
                delay := Min(m.delay * BACKOFF_MULTIPLIER, MAX_RECONNECT_DELAY));
    TornDownTidy(n);
    ConnectingFresh(TornDown(n));
    FiredForgetsTimer(m, t);
  }

  /** The fired timer's number is still stored when the socket is rebuilt; clearing it then does nothing. */
  lemma FiredForgetsTimer(m: Manager, t: nat)
    requires Inv(m) && t in m.host.timers
    ensures Fired(m, t) == Recreated(m.(host := m.host.(timers := map[]), timer := None,
                                        delay := Min(m.delay * BACKOFF_MULTIPLIER, MAX_RECONNECT_DELAY)))
  {
    assert m.host.timers - {t} == map[];
  }

  lemma SocketEventKeepsInv(m: Manager, e: Event)
    requires Inv(m) && (e.Opened? || e.Refused? || e.Dropped?)
    ensures Inv(Step(m, e))
  {
    var i := e.socket;
    if i < |m.host.sockets| && m.host.sockets[i].listening && !e.Opened? {
      var w := WithPhase(m, i, Closed);
      ScheduledInv(w);
      ScheduledInv(w.(status := Offline));
    }
  }

  lemma StepKeepsInv(m: Manager, e: Event)
    requires Inv(m) && Paired(m, e)
    ensures Inv(Step(m, e))
  {
    hide Inv, Connecting, Disconnected, Woken, Fired, OpenedBy, RefusedBy, DroppedBy;
    match e
    case Connect => ConnectKeepsInv(m);
    case Disconnect => DisconnectKeepsInv(m);
    case Wake => WakeKeepsInv(m);
    case Fire(t) => if t in m.host.timers { FireKeepsInv(m, t); }
    case _ => SocketEventKeepsInv(m, e);
  }

  lemma {:induction false} RunKeepsInv(m: Manager, es: seq<Event>)
    requires Inv(m) && PairedRun(m, es)
    ensures Inv(Exec(m, es))
    decreases |es|
  {
    hide Inv, Step, Paired;
    if es != [] {
      StepKeepsInv(m, es[0]);
      RunKeepsInv(Step(m, es[0]), es[1..]);
    }
  }

  /**
   * What holds in every run, paired or not: the manager's timer is the only armed one; the current socket
   * has handlers; and a manager that is not shut down has a live socket or an armed timer.
   */
  ghost predicate HostInv(m: Manager) {
    && (m.socket.Some? ==> m.socket.value < |m.host.sockets| && m.host.sockets[m.socket.value].listening)
    && m.host.timers.Keys == (if m.timer.Some? then {m.timer.value} else {})
    && (m.socket.None? ==> m.manual || m.host.sockets == []) && (m.manual ==> m.socket.None?)
    && (m.socket.Some? && m.host.sockets[m.socket.value].phase == Closed ==> m.timer.Some?)
  }

  lemma StepKeepsHost(m: Manager, e: Event)
    requires HostInv(m)
    ensures HostInv(Step(m, e))
  {
  }

  lemma {:induction false} RunKeepsHost(m: Manager, es: seq<Event>)
    requires HostInv(m)
    ensures HostInv(Exec(m, es))
    decreases |es|
  {
    if es != [] {
      StepKeepsHost(m, es[0]);
      hide Step, HostInv;
      RunKeepsHost(Step(m, es[0]), es[1..]);
    }
  }

  /**
   * Never stuck, in any run at all: once a socket was created, the manager is shut down by hand, connected,
   * in handshake, or its one armed timer will try again.
   */
  lemma NeverStuck(es: seq<Event>)
    ensures var m := Exec(INITIAL, es);
      && |m.host.timers| <= 1
      && (m.host.sockets != [] && !m.manual ==>
            && m.socket.Some? && m.socket.value < |m.host.sockets|
            && (m.host.sockets[m.socket.value].phase != Closed || m.host.timers != map[]))
  {
    hide Exec, Step;
    RunKeepsHost(INITIAL, es);
    var m := Exec(INITIAL, es);
    assert |m.host.timers| == |m.host.timers.Keys|;
    if m.timer.Some? { assert m.timer.value in m.host.timers; }
  }

  /**
   * With the pairing, also: a timer is armed only for a closed socket, every other socket that was ever created
   * is closed and without handlers, and the status shown to the user tells connected, disconnected and
   * in-between apart.
   */
  lemma PairedPicture(es: seq<Event>)
    requires PairedRun(INITIAL, es)
    ensures var m := Exec(INITIAL, es);
      && (forall i :: 0 <= i < |m.host.sockets| && m.socket != Some(i) ==> m.host.sockets[i] == Socket(Closed, false))
      && (m.host.timers != map[] <==>
            m.socket.Some? && m.socket.value < |m.host.sockets| && m.host.sockets[m.socket.value].phase == Closed)
      && (m.status == Online <==> IsConnected(m))
      && (m.status == Offline <==> m.socket.None?)
  {
    hide Exec;
    RunKeepsInv(INITIAL, es);
    var m := Exec(INITIAL, es);
    if m.timer.Some? { assert m.timer.value in m.host.timers; }
  }

  /** With the pairing, nothing but `disconnect()` and a drop of its socket ends a connection. */
  lemma ConnectionLasts(m: Manager, e: Event)
    requires Inv(m) && m.socket.Some? && m.host.sockets[m.socket.value].phase == Connected
    ensures var t := Step(m, e);
      (t.socket == m.socket && t.host.sockets[m.socket.value] == Socket(Connected, true) && t.status == Online) <==>
        !e.Disconnect? && e != Dropped(m.socket.value)
  {
  }

  // ----- Backoff -----

  /** 1000 * 2^n, cut at 30000. */
  function Backoff(n: nat): nat {
    if n == 0 then INITIAL_RECONNECT_DELAY else Min(Backoff(n - 1) * BACKOFF_MULTIPLIER, MAX_RECONNECT_DELAY)
  }

  function Pow2(n: nat): nat { if n == 0 then 1 else 2 * Pow2(n - 1) }

  lemma {:induction false} BackoffClosed(n: nat)
    ensures Backoff(n) == Min(1000 * Pow2(n), 30000)
    ensures 1000 <= Backoff(n) <= 30000
  {
    if n > 0 { BackoffClosed(n - 1); }
  }

  /**
   * One more event in the count of timer firings: it starts again at a wake-up that finds the manager neither
   * shut down nor connected, and at the opening of a socket with handlers.
   */
  function Counted(m: Manager, n: nat, e: Event): nat {
    match e
    case Wake =>
      if m.manual || (m.socket.Some? && m.socket.value < |m.host.sockets| && m.host.sockets[m.socket.value].phase == Connected)
      then n else 0
    case Fire(t) => if t in m.host.timers then n + 1 else n
    case Opened(i) => if i < |m.host.sockets| && m.host.sockets[i] == Socket(Handshake, true) then 0 else n
    case _ => n
  }

  /** The timer firings of the run since the last such wake-up or opening; `n` came before the run. */
  function Firings(m: Manager, n: nat, es: seq<Event>): nat
    decreases |es|
  {
    if es == [] then n else Firings(Step(m, es[0]), Counted(m, n, es[0]), es[1..])
  }

  ghost predicate DelayInv(m: Manager, n: nat) {
    m.delay == Backoff(n) && forall t :: t in m.host.timers ==> 1000 <= m.host.timers[t] <= 30000
  }

  lemma StepKeepsDelay(m: Manager, n: nat, e: Event)
    requires DelayInv(m, n)
    ensures DelayInv(Step(m, e), Counted(m, n, e))
  {
    BackoffClosed(n);
    assert Backoff(0) == INITIAL_RECONNECT_DELAY;
    assert Backoff(n + 1) == Min(m.delay * BACKOFF_MULTIPLIER, MAX_RECONNECT_DELAY);
    hide Backoff, Pow2;
  }

  lemma {:induction false} RunKeepsDelay(m: Manager, n: nat, es: seq<Event>)
    requires DelayInv(m, n)
    ensures DelayInv(Exec(m, es), Firings(m, n, es))
    decreases |es|
  {
    hide Step, DelayInv, Counted;
    if es != [] {
      StepKeepsDelay(m, n, es[0]);
      RunKeepsDelay(Step(m, es[0]), Counted(m, n, es[0]), es[1..]);
    }
  }

  lemma {:induction false} FiringsSnoc(m: Manager, n: nat, es: seq<Event>, e: Event)
    ensures Firings(m, n, es + [e]) == Counted(Exec(m, es), Firings(m, n, es), e)
    decreases |es|
  {
    hide Step, Counted;
    if es == [] {
      assert es + [e] == [e] && [e][1..] == [];
    } else {
      FiringsSnoc(Step(m, es[0]), Counted(m, n, es[0]), es[1..], e);
      assert (es + [e])[1..] == es[1..] + [e];
    }
  }

  lemma InitialDelay()
    ensures DelayInv(INITIAL, 0)
  {
    assert Backoff(0) == INITIAL_RECONNECT_DELAY;
  }

  /**
   * In any run at all, a timer is armed with min(1000 * 2^n, 30000) milliseconds, where n counts the timer
   * firings since the last successful connect or wake-up, however many errors and drops came between; and
   * every armed timer waits between 1000 and 30000 milliseconds.
   */
  lemma ArmedDelay(es: seq<Event>, e: Event, t: nat)
    ensures var m, after, n := Exec(INITIAL, es), Step(Exec(INITIAL, es), e), Firings(INITIAL, 0, es + [e]);
      t in after.host.timers ==>
        && 1000 <= after.host.timers[t] <= 30000
        && (t !in m.host.timers ==> after.host.timers[t] == Min(1000 * Pow2(n), 30000))
  {
    var m := Exec(INITIAL, es);
    var after := Step(m, e);
    InitialDelay();
    RunKeepsDelay(INITIAL, 0, es);
    StepKeepsDelay(m, Firings(INITIAL, 0, es), e);
    FiringsSnoc(INITIAL, 0, es, e);
    BackoffClosed(Firings(INITIAL, 0, es + [e]));
    if t !in m.host.timers && t in after.host.timers { ArmsCurrentDelay(m, e, t); }
    hide Exec, Pow2, Step, Backoff, Firings;
  }

  lemma ArmsCurrentDelay(m: Manager, e: Event, t: nat)
    requires t !in m.host.timers && t in Step(m, e).host.timers
    ensures Step(m, e).host.timers[t] == Step(m, e).delay
  {
  }

  /** With the pairing, that is the delay of an armed timer until it fires or is cleared. */
  lemma PairedDelay(es: seq<Event>, t: nat)
    requires PairedRun(INITIAL, es)
    ensures var m := Exec(INITIAL, es);
      t in m.host.timers ==> m.host.timers[t] == Min(1000 * Pow2(Firings(INITIAL, 0, es)), 30000)
  {
    hide Exec, Pow2, Backoff, Firings;
    RunKeepsInv(INITIAL, es);
    InitialDelay();
    RunKeepsDelay(INITIAL, 0, es);
    BackoffClosed(Firings(INITIAL, 0, es));
  }

  /**
   * Without the pairing it is not: a leaked socket that opens starts the count again while the timer that the
   * current socket armed keeps its longer delay.
   */
  lemma LeakOutdatesDelay()
    ensures var es := [Connect, Connect, Refused(1)] + [Fire(0), Refused(2), Opened(0)];
      Exec(INITIAL, es).host.timers == map[1 := 2000] && Firings(INITIAL, 0, es) == 0
  {
    var es, last := [Connect, Connect, Refused(1)] + [Fire(0), Refused(2)], Opened(0);
    Run3(INITIAL, Connect, Connect, Refused(1));
    var m1 := Step(INITIAL, Connect);
    var m2 := Step(m1, Connect);
    assert m2.host.sockets == [Socket(Handshake, true), Socket(Handshake, true)];
    var m3 := Step(m2, Refused(1));
    assert m3.host == Host([Socket(Handshake, true), Socket(Closed, true)], map[0 := 1000], 1);
    assert m3.socket == Some(1) && m3.timer == Some(0) && m3.delay == 1000 && !m3.manual;
    ExecAppend(INITIAL, [Connect, Connect, Refused(1)], [Fire(0), Refused(2)]);
    ExecAppend(INITIAL, es, [last]);
    FiringsSnoc(INITIAL, 0, es, last);
    LeakedTail(m3);
    assert es + [last] == [Connect, Connect, Refused(1)] + [Fire(0), Refused(2), Opened(0)];
    hide Step, Firings;
    assert [last][1..] == [] && [Fire(0), Refused(2)][1..] == [Refused(2)] && [Refused(2)][1..] == [];
    assert Exec(m3, [Fire(0), Refused(2)]) == Exec(Step(m3, Fire(0)), [Refused(2)]);
    assert Exec(Step(m3, Fire(0)), [Refused(2)]) == Exec(Step(Step(m3, Fire(0)), Refused(2)), []);
  }

  lemma LeakedTail(m: Manager)
    requires m.host == Host([Socket(Handshake, true), Socket(Closed, true)], map[0 := 1000], 1)
    requires m.socket == Some(1) && m.timer == Some(0) && m.delay == 1000 && !m.manual
    ensures var t := Step(Step(m, Fire(0)), Refused(2));
      && t.host.sockets[..1] == [Socket(Handshake, true)] && Counted(t, 1, Opened(0)) == 0
      && Step(t, Opened(0)).host.timers == map[1 := 2000]
    ensures forall n :: Counted(Step(Step(m, Fire(0)), Refused(2)), n, Opened(0)) == 0
  {
    var m4 := Step(m, Fire(0));
    assert m4.host == Host([Socket(Handshake, true), Socket(Closed, false), Socket(Handshake, true)], map[], 1);
    var m5 := Step(m4, Refused(2));
    assert m5.host.sockets == [Socket(Handshake, true), Socket(Closed, false), Socket(Closed, true)];
  }

  lemma {:induction false} ExecAppend(m: Manager, es: seq<Event>, fs: seq<Event>)
    ensures Exec(m, es + fs) == Exec(Exec(m, es), fs)
    decreases |es|
  {
    hide Step;
    if es == [] {
      assert es + fs == fs;
    } else {
      ExecAppend(Step(m, es[0]), es[1..], fs);
      assert (es + fs)[1..] == es[1..] + fs;
    }
  }

  lemma Run3(m: Manager, e: Event, f: Event, g: Event)
    ensures Exec(m, [e, f, g]) == Step(Step(Step(m, e), f), g)
  {
    hide Step;
    assert [e, f, g][1..] == [f, g] && [f, g][1..] == [g] && [g][1..] == [];
    assert Exec(Step(m, e), [f, g]) == Exec(Step(Step(m, e), f), [g]);
    assert Exec(Step(Step(m, e), f), [g]) == Exec(Step(Step(Step(m, e), f), g), []);
  }

  // ----- Wake-ups before the first connect -----

  /** The first wake-up of the run, if any, comes after a `disconnect()`. */
  predicate WakesLate(es: seq<Event>) {
    es != [] ==> es[0].Disconnect? || (!es[0].Wake? && WakesLate(es[1..]))
  }

  predicate Untouched(m: Manager) { m.socket.None? && m.host == INITIAL.host && m.timer.None? }

  lemma UntouchedStep(m: Manager, e: Event)
    requires Untouched(m) && !e.Connect?
    ensures if e.Wake? && !m.manual then Step(m, e).host.sockets != [] else Untouched(Step(m, e))
    ensures Step(m, e).manual <==> if e.Wake? then m.manual else m.manual || e.Disconnect?
  {
  }

  lemma {:induction false} SocketsStay(m: Manager, es: seq<Event>)
    requires m.host.sockets != []
    ensures Exec(m, es).host.sockets != []
    decreases |es|
  {
    if es != [] { SocketsStay(Step(m, es[0]), es[1..]); }
  }

  lemma {:induction false} UntouchedRun(m: Manager, es: seq<Event>)
    requires Untouched(m) && NoConnect(es)
    ensures Exec(m, es).host.sockets == [] <==> m.manual || WakesLate(es)
    decreases |es|
  {
    hide Step;
    if es != [] {
      var t := Step(m, es[0]);
      UntouchedStep(m, es[0]);
      if t.host.sockets == [] { UntouchedRun(t, es[1..]); } else { SocketsStay(t, es[1..]); }
    }
  }

  /**
   * Before any `connect()`, a wake-up opens a socket of its own accord: a run without `connect()` stays
   * without sockets exactly when its first wake-up comes after a `disconnect()`.
   */
  lemma EarlyWakeOpens(es: seq<Event>)
    requires NoConnect(es)
    ensures Exec(INITIAL, es).host.sockets == [] <==> WakesLate(es)
  {
    UntouchedRun(INITIAL, es);
  }

  // ----- Shutdown is final -----

  predicate NoConnect(es: seq<Event>) { Connect !in es }

  /** A shut-down manager, as far as the rest of the dashboard can see: no socket, no timer, no new socket. */
  predicate ShutDown(m: Manager, sockets: nat) {
    m.manual && m.socket.None? && m.timer.None? && m.host.timers == map[] && m.status == Offline && |m.host.sockets| == sockets
  }

  /** A socket that was replaced without being torn down, and that can still open. */
  ghost predicate Leaked(m: Manager) {
    exists i :: 0 <= i < |m.host.sockets| && m.socket != Some(i) && m.host.sockets[i].listening && m.host.sockets[i].phase == Handshake
  }

  lemma StepStaysShutDown(m: Manager, e: Event, n: nat)
    requires ShutDown(m, n) && !Leaked(m) && !e.Connect?
    ensures ShutDown(Step(m, e), n) && !Leaked(Step(m, e))
  {
    var t := Step(m, e);
    forall i | 0 <= i < |t.host.sockets| && t.host.sockets[i].listening
      ensures t.host.sockets[i].phase != Handshake
    {
      assert m.host.sockets[i].listening && m.socket != Some(i);
    }
  }

  lemma {:induction false} StaysShutDown(m: Manager, es: seq<Event>, n: nat)
    requires ShutDown(m, n) && !Leaked(m) && NoConnect(es)
    ensures ShutDown(Exec(m, es), n)
    decreases |es|
  {
    if es != [] {
      StepStaysShutDown(m, es[0], n);
      hide Step, ShutDown;
      StaysShutDown(Step(m, es[0]), es[1..], n);
    }
  }

  /**
   * After any run at all, `disconnect()` is final exactly when no leaked socket is left in handshake: then no
   * sequence of timers, wake-ups and socket events without `connect()` creates a socket, arms a timer or
   * changes the status.
   */
  lemma ShutdownIsFinal(es: seq<Event>)
    ensures var m := Exec(INITIAL, es);
      (forall fs :: NoConnect(fs) ==> ShutDown(Exec(Disconnected(m), fs), |m.host.sockets|)) <==> !Leaked(m)
  {
    RunKeepsHost(INITIAL, es);
    var m := Exec(INITIAL, es);
    var d, n := Disconnected(m), |m.host.sockets|;
    assert ShutDown(d, n);
    if !Leaked(m) {
      forall i | 0 <= i < |d.host.sockets| && d.host.sockets[i].listening
        ensures d.host.sockets[i].phase != Handshake
      {
        assert m.socket != Some(i) && d.host.sockets[i] == m.host.sockets[i];
      }
      assert !Leaked(d);
      forall fs | NoConnect(fs) ensures ShutDown(Exec(d, fs), n) {
        StaysShutDown(d, fs, n);
      }
    } else {
      var fs := LeakReopens(m);
      assert !ShutDown(Exec(d, fs), n);
    }
  }

  lemma LeakReopens(m: Manager) returns (fs: seq<Event>)
    requires HostInv(m) && Leaked(m)
    ensures NoConnect(fs) && Exec(Disconnected(m), fs).status == Online
  {
    var d := Disconnected(m);
    var i: nat :| i < |m.host.sockets| && m.socket != Some(i) && m.host.sockets[i].listening
                  && m.host.sockets[i].phase == Handshake;
    assert d.host.sockets[i] == m.host.sockets[i];
    fs := [Opened(i)];
    assert fs[1..] == [];
    assert Exec(d, fs) == Exec(Step(d, Opened(i)), []) == OpenedBy(d, i);
  }

  /** In a run that keeps the pairing nothing leaks, so there `disconnect()` is final. */
  lemma PairedShutdownIsFinal(es: seq<Event>, fs: seq<Event>)
    requires PairedRun(INITIAL, es) && NoConnect(fs)
    ensures var m := Exec(INITIAL, es);
      ShutDown(Exec(Disconnected(m), fs), |m.host.sockets|)
  {
    hide Exec;
    RunKeepsInv(INITIAL, es);
    ShutdownIsFinal(es);
  }

  /**
   * Without the pairing the guarantee is lost: `connect()` during a handshake leaves the old socket's
   * handlers attached, and after `disconnect()` its late opening shows "connected".
   */
  lemma ConnectInHandshakeLeaks()
    ensures var m := Exec(INITIAL, [Connect, Connect]);
      && m.host.sockets == [Socket(Handshake, true), Socket(Handshake, true)] && m.socket == Some(1)
      && Exec(Disconnected(m), [Opened(0)]).status == Online
  {
    var m1 := Step(INITIAL, Connect);
    assert m1.host.sockets == [Socket(Handshake, true)];
    var m2 := Step(m1, Connect);
    assert m2.host.sockets == [Socket(Handshake, true), Socket(Handshake, true)];
    assert [Connect, Connect][1..] == [Connect] && [Connect][1..] == [];
    assert Exec(INITIAL, [Connect, Connect]) == Exec(m1, [Connect]) == Exec(m2, []) == m2;
    var d := Disconnected(m2);
    assert d.host.sockets[0] == Socket(Handshake, true);
    assert [Opened(0)][1..] == [];
    assert Exec(d, [Opened(0)]) == Exec(OpenedBy(d, 0), []);
  }

  lemma Keeps(m: Manager, e: Event)
    requires HostInv(m) && !e.Connect?
    ensures HostInv(Step(m, e)) && (Inv(m) ==> Inv(Step(m, e)))
    ensures m.socket.Some? ==> m.socket.value < |m.host.sockets|
  {
    StepKeepsHost(m, e);
    if Inv(m) { StepKeepsInv(m, e); }
    hide Step, Inv;
  }

  function StoredTimer(timer: Option<nat>): set<nat> { if timer.Some? then {timer.value} else {} }

  /** The manager with the host's sockets and timeouts. */
  class WebSocketManager {
    var sockets: seq<Socket>
    var timers: map<nat, nat>
    var nextTimer: nat
    var socket: Option<nat>
    var reconnectTimer: Option<nat>
    var reconnectDelay: nat
    var manualDisconnect: bool
    var status: Status

    ghost function State(): Manager
      reads this
    {
      Manager(Host(sockets, timers, nextTimer), socket, reconnectTimer, reconnectDelay, manualDisconnect, status)
    }

    /** Holds however the manager is used. */
    ghost predicate Hosted()
      reads this
    {
      HostInv(State())
    }

    /** Holds while `connect()` is called only with no socket or a connected one. */
    ghost predicate Valid()
      reads this
    {
      Inv(State())
    }

    constructor ()
      ensures Valid() && Hosted() && State() == INITIAL
    {
      sockets, timers, nextTimer := [], map[], 0;
      socket, reconnectTimer, reconnectDelay := None, None, INITIAL_RECONNECT_DELAY;
      manualDisconnect, status := false, Offline;
    }

    predicate SocketConnected()
      reads this
    {
      socket.Some? && socket.value < |sockets| && sockets[socket.value].phase == Connected
    }

    method ClearReconnectTimer()
      modifies this`timers, this`reconnectTimer
      ensures State() == TimerCleared(old(State()))
    {
      if reconnectTimer.Some? {
        timers := timers - {reconnectTimer.value};
        reconnectTimer := None;
      }
    }

    method TearDown()
      requires socket.Some? && socket.value < |sockets|
      modifies this`sockets, this`socket
      ensures State() == TornDown(old(State()))
    {
      var i := socket.value;
      sockets := sockets[i := sockets[i].(listening := false)];
      sockets := sockets[i := sockets[i].(phase := Closed)];
      socket := None;
    }

    method DoConnect()
      modifies this
      ensures State() == Connecting(old(State()))
    {
      if SocketConnected() { return; }
      manualDisconnect := false;
      ClearReconnectTimer();
      sockets := sockets + [Socket(Handshake, true)];
      socket := Some(|sockets| - 1);
      status := Reconnecting;
    }

    method RecreateAndConnect()
      requires socket.Some? ==> socket.value < |sockets|
      modifies this
      ensures State() == Recreated(old(State()))
    {
      if socket.Some? { TearDown(); }
      DoConnect();
    }

    method ScheduleReconnect()
      modifies this
      ensures State() == Scheduled(old(State()))
    {
      ClearReconnectTimer();
      status := Reconnecting;
      timers := timers[nextTimer := reconnectDelay];
      reconnectTimer := Some(nextTimer);
      nextTimer := nextTimer + 1;
    }

    /** Every method below can be called in any reachable state, and keeps `Valid()` where the design does. */
    method WakeReconnect()
      requires Hosted()
      modifies this
      ensures Hosted() && State() == Step(old(State()), Wake)
      ensures old(Valid()) ==> Valid()
      ensures old(manualDisconnect || SocketConnected()) ==> State() == old(State())
      ensures !old(manualDisconnect || SocketConnected()) ==>
                && reconnectDelay == 1000 && status == Reconnecting && timers == old(timers) - StoredTimer(old(reconnectTimer))
                && |sockets| == |old(sockets)| + 1 && socket == Some(|old(sockets)|)
                && sockets[|old(sockets)|] == Socket(Handshake, true)
    {
      Keeps(State(), Wake);
      hide Inv, HostInv;
      if manualDisconnect { return; }
      if SocketConnected() { return; }
      reconnectDelay := INITIAL_RECONNECT_DELAY;
      ClearReconnectTimer();
      RecreateAndConnect();
    }

    /** The armed timeout runs. */
    method OnTimeout(t: nat)
      requires Hosted() && t in timers
      modifies this
      ensures Hosted() && State() == Step(old(State()), Fire(t))
      ensures old(Valid()) ==> Valid()
      ensures reconnectDelay == if 2 * old(reconnectDelay) <= 30000 then 2 * old(reconnectDelay) else 30000
    {
      Keeps(State(), Fire(t));
      hide Inv, HostInv;
      timers := timers - {t};
      reconnectDelay := Min(reconnectDelay * BACKOFF_MULTIPLIER, MAX_RECONNECT_DELAY);
      RecreateAndConnect();
    }

    /** Whether `Valid()` is kept depends on the caller: exactly the paired calls keep it. */
    method Connect()
      requires Hosted()
      modifies this
      ensures Hosted() && State() == Step(old(State()), Event.Connect)
      ensures old(Valid()) ==> (Valid() <==> old(Paired(State(), Event.Connect)))
      ensures old(SocketConnected()) ==> State() == old(State())
      ensures !old(SocketConnected()) ==>
                && !manualDisconnect && reconnectTimer == None && reconnectDelay == old(reconnectDelay)
                && status == Reconnecting && timers == old(timers) - StoredTimer(old(reconnectTimer))
                && sockets == old(sockets) + [Socket(Handshake, true)] && socket == Some(|old(sockets)|)
    {
      StepKeepsHost(State(), Event.Connect);
      if Inv(State()) { PairingIsExact(State()); }
      hide Inv, HostInv;
      DoConnect();
    }

    method Disconnect()
      requires Hosted()
      modifies this
      ensures Hosted() && State() == Step(old(State()), Event.Disconnect)
      ensures old(Valid()) ==> Valid()
      ensures manualDisconnect && socket == None && reconnectTimer == None && status == Offline && |sockets| == |old(sockets)|
      ensures old(socket).Some? && old(socket).value < |sockets| ==> sockets[old(socket).value] == Socket(Closed, false)
    {
      Keeps(State(), Event.Disconnect);
      hide Inv, HostInv;
      manualDisconnect := true;
      ClearReconnectTimer();
      if socket.Some? { TearDown(); }
      status := Offline;
    }

    /** The `connect`, `connect_error` and `disconnect` events of a socket whose handlers are attached. */
    method HandleConnect(i: nat)
      requires Hosted() && i < |sockets| && sockets[i] == Socket(Handshake, true)
      modifies this
      ensures Hosted() && State() == Step(old(State()), Opened(i))
      ensures old(Valid()) ==> Valid()
      ensures reconnectDelay == 1000 && status == Online && timers == old(timers)
    {
      Keeps(State(), Opened(i));
      hide Inv, HostInv;
      sockets := sockets[i := Socket(Connected, true)];
      reconnectDelay := INITIAL_RECONNECT_DELAY;
      status := Online;
    }

    method HandleError(i: nat)
      requires Hosted() && i < |sockets| && sockets[i].listening && sockets[i].phase != Connected
      modifies this
      ensures Hosted() && State() == Step(old(State()), Refused(i))
      ensures old(Valid()) ==> Valid()
      ensures reconnectDelay == old(reconnectDelay)
      ensures old(manualDisconnect) ==> timers == old(timers) && status == old(status)
      ensures !old(manualDisconnect) ==>
                && timers == (old(timers) - StoredTimer(old(reconnectTimer)))[old(nextTimer) := reconnectDelay]
                && status == Reconnecting
    {
      Keeps(State(), Refused(i));
      hide Inv, HostInv;
      sockets := sockets[i := sockets[i].(phase := Closed)];
      if !manualDisconnect { ScheduleReconnect(); }
    }

    method HandleDisconnect(i: nat)
      requires Hosted() && i < |sockets| && sockets[i].listening && sockets[i].phase != Handshake
      modifies this
      ensures Hosted() && State() == Step(old(State()), Dropped(i))
      ensures old(Valid()) ==> Valid()
      ensures reconnectDelay == old(reconnectDelay)
      ensures old(manualDisconnect) ==> timers == old(timers) && status == Offline
      ensures !old(manualDisconnect) ==>
                && timers == (old(timers) - StoredTimer(old(reconnectTimer)))[old(nextTimer) := reconnectDelay]
                && status == Reconnecting
    {
      Keeps(State(), Dropped(i));
      hide Inv, HostInv;
      sockets := sockets[i := sockets[i].(phase := Closed)];
      status := Offline;
      if !manualDisconnect { ScheduleReconnect(); }
    }
  }
}
