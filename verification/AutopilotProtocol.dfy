/**
 * The autopilot cache together with its environment: the backend that writes an account's key and then
 * publishes, the FIFO channel, `is_enabled` callers and the listener, interleaved step by step. The lock
 * is explicit: a caller that loads holds it across the read of the key.
 */
module AutopilotProtocol {
  import opened Seqs
  import opened AutopilotMonitor

  datatype Lock = Free | Loading(account: Account) | Loaded(account: Account, reply: Reply)

  /** `Ended` is no listener thread: before the first registration, and after a thread has finished. */
  datatype Listener = Ended | Waiting | InHand(msg: Msg) | Calling(msg: Msg, next: nat, upto: nat)

  /** Redis, the writer, and the channel as the current subscription sees it. */
  datatype Env = Env(
    redis: map<Account, string>, unpublished: map<Account, bool>, subscribed: bool, channel: seq<Wire>)

  /** History of loads: the loaded values, and the accounts whose key was read, in order. */
  datatype Loads = Loads(base: map<Account, bool>, asked: seq<Account>)

  /**
   * History of the listener: delivered messages, those that changed the cache, callback calls, and the
   * number of notices at each registration.
   */
  datatype Heard = Heard(delivered: seq<Msg>, notices: seq<Msg>, fired: seq<Firing>, since: seq<nat>)

  datatype System = System(
    env: Env, listener: Listener, stop: bool, lock: Lock, states: map<Account, bool>, callbacks: nat,
    loads: Loads, heard: Heard)

  /**
   * `Write` sets the key (or, with `ok` false, gives up after its retries and goes on to publish). `Publish`
   * is one attempt: it reaches the channel or not, and it is the last one or is followed by a retry. `Resync`
   * is the backend's start-up write without a message. `Halt` is `stop()`; `Crash` is a Redis failure that
   * ends the waiting listener.
   */
  datatype Event =
    | Write(account: Account, enabled: bool, ok: bool) | Publish(account: Account, sent: bool, done: bool)
    | Resync(account: Account, enabled: bool) | Noise(wire: Wire) | Up
    | Register | Halt | Crash | Ask(account: Account) | Get(ok: bool) | Store
    | Receive | Deliver | Call

  function Initial(redis: map<Account, string>): System {
    System(Env(redis, map[], false, []), Ended, false, Free, map[], 0, Loads(map[], []), Heard([], [], [], []))
  }

  function Key(s: System, a: Account): bool { Decode(Lookup(s.env.redis, a)) }

  /** The messages on their way to the cache, oldest first. */
  function Flight(s: System): seq<Msg> {
    (if s.listener.InHand? then [s.listener.msg] else []) + AcceptAll(s.env.channel)
  }

  /** The writer takes up a new value for `a` only when it is done with the previous one. */
  predicate Taken(s: System, a: Account) { a != "" && a !in s.env.unpublished }

  function Written(s: System, a: Account, v: bool, ok: bool): System {
    if !Taken(s, a) then s
    else
      var redis := if ok then s.env.redis[a := Encode(v)] else s.env.redis;
      s.(env := s.env.(redis := redis, unpublished := s.env.unpublished[a := v]))
  }

  function Sent(s: System, wire: Wire): System { s.(env := s.env.(channel := s.env.channel + [wire])) }

  function Published(s: System, a: Account, sent: bool, done: bool): System {
    if a !in s.env.unpublished then s
    else
      var t := if sent && s.env.subscribed then Sent(s, Update(a, Some(s.env.unpublished[a]))) else s;
      if done then t.(env := t.env.(unpublished := t.env.unpublished - {a})) else t
  }

  function Resynced(s: System, a: Account, v: bool): System {
    s.(env := s.env.(redis := s.env.redis[a := Encode(v)]))
  }

  /** `subscribe`: one more callback, and a new thread, not yet subscribed, if none is alive. */
  function Registered(s: System): System {
    if s.lock != Free then s
    else
      s.(callbacks := s.callbacks + 1, heard := s.heard.(since := s.heard.since + [|s.heard.notices|]),
         stop := s.stop && s.listener != Ended,
         listener := if s.listener == Ended then Waiting else s.listener)
  }

  function Got(s: System, ok: bool): System {
    if !s.lock.Loading? then s
    else
      var a := s.lock.account;
      s.(lock := Loaded(a, if ok then Value(Lookup(s.env.redis, a)) else Unavailable),
         loads := s.loads.(asked := s.loads.asked + [a]))
  }

  function Stored(s: System): System {
    if !s.lock.Loaded? then s
    else
      var a, v := s.lock.account, LoadResult(s.lock.reply);
      s.(lock := Free, states := s.states[a := v], loads := s.loads.(base := s.loads.base[a := v]))
  }

  /** The thread ends, and with it the subscription and what it had not yet read. */
  function Down(s: System): System {
    s.(listener := Ended, env := s.env.(subscribed := false, channel := []))
  }

  /** The listener takes the next frame and finds the stop event set, or the frame ends the thread. */
  predicate LastFrame(s: System) {
    s.listener == Waiting && s.env.channel != [] && (s.stop || s.env.channel[0].Fatal?)
  }

  function Received(s: System): System {
    if s.listener != Waiting || s.env.channel == [] then s
    else if LastFrame(s) then Down(s)
    else
      s.(env := s.env.(channel := s.env.channel[1..]),
         listener := match Accepted(s.env.channel[0]) case Some(m) => InHand(m) case None => Waiting)
  }

  function Delivered(s: System): System {
    if !s.listener.InHand? || s.lock != Free then s
    else
      var m := s.listener.msg;
      var changed := Changes(s.states, m);
      s.(states := s.states[m.account := m.enabled],
         listener := if changed then Calling(m, 0, s.callbacks) else Waiting,
         heard := s.heard.(
           delivered := s.heard.delivered + [m],
           notices := if changed then s.heard.notices + [m] else s.heard.notices))
  }

  function Called(s: System): System {
    match s.listener
    case Calling(m, next, upto) =>
      if next < upto
      then s.(heard := s.heard.(fired := s.heard.fired + [Firing(next, m)]), listener := Calling(m, next + 1, upto))
      else s.(listener := Waiting)
    case _ => s
  }

  /** One step of one party. A step that its party cannot take now changes nothing. */
  function Step(s: System, e: Event): System {
    match e
    case Write(a, v, ok) => Written(s, a, v, ok)
    case Publish(a, sent, done) => Published(s, a, sent, done)
    case Resync(a, v) => Resynced(s, a, v)
    case Noise(wire) => if Accepted(wire).None? && s.env.subscribed then Sent(s, wire) else s
    case Up => if s.listener == Waiting then s.(env := s.env.(subscribed := true)) else s
    case Register => Registered(s)
    case Halt => s.(stop := true)
    case Crash => if s.listener == Waiting then Down(s) else s
    case Ask(a) => if s.lock == Free && a !in s.states then s.(lock := Loading(a)) else s
    case Get(ok) => Got(s, ok)
    case Store => Stored(s)
    case Receive => Received(s)
    case Deliver => Delivered(s)
    case Call => Called(s)
  }

  function Exec(s: System, es: seq<Event>): System
    decreases |es|
  {
    if es == [] then s else Exec(Step(s, es[0]), es[1..])
  }

  // ----- The value that the cache is coming to -----

  /** The cached value, or the one a caller has just read and is about to cache. */
  function Cached(s: System, a: Account): Option<bool> {
    if s.lock.Loaded? && s.lock.account == a then Some(LoadResult(s.lock.reply)) else Lookup(s.states, a)
  }

  /** What the cache will hold for `a` when all that was sent has arrived. */
  function Arriving(s: System, a: Account): Option<bool> { LastOr(Cached(s, a), For(a, Flight(s))) }

  /** What the cache will hold for `a` when the writer is done as well. */
  function Coming(s: System, a: Account): Option<bool> {
    if a in s.env.unpublished then Some(s.env.unpublished[a]) else Arriving(s, a)
  }

  /** The cache holds, or is coming to, the value of the key; or it holds and expects nothing for `a`. */
  predicate WillAgree(s: System, a: Account) { Coming(s, a).Some? ==> Coming(s, a).value == Key(s, a) }

  /** The writer's last attempt to publish its value for `a` does not reach the listener. */
  predicate Loses(s: System, e: Event, a: Account) {
    e.Publish? && e.account == a && a in s.env.unpublished && e.done && !(e.sent && s.env.subscribed)
  }

  /** The listener thread ends, and loses what it had not yet read. */
  predicate Falls(s: System, e: Event) { (e.Crash? && s.listener == Waiting) || (e.Receive? && LastFrame(s)) }

  function Agreeing(v: Option<bool>, key: bool): bool { v.Some? ==> v.value == key }

  /**
   * The faults that break the agreement for `a`, each with its guard: a failed write of a new value; a lost
   * publish, or a listener that ends, where what remains differs from the key; a write without a message
   * that differs from what is coming; and a failed read of an enabled key with nothing on its way.
   */
  predicate Breaks(s: System, e: Event, a: Account) {
    match e
    case Write(b, v, ok) => b == a && Taken(s, a) && !ok && v != Key(s, a)
    case Publish(_, _, _) => Loses(s, e, a) && !Agreeing(Arriving(s, a), Key(s, a))
    case Resync(b, v) => b == a && !Agreeing(Coming(s, a), v)
    case Get(ok) => !ok && s.lock == Loading(a) && Coming(s, a) == None && Key(s, a)
    case _ => Falls(s, e) && a !in s.env.unpublished && !Agreeing(Cached(s, a), Key(s, a))
  }

  /** The events that restore the agreement for `a` whatever came before. */
  predicate Mends(s: System, e: Event, a: Account) {
    match e
    case Write(b, v, ok) => b == a && Taken(s, a) && (ok || v == Key(s, a))
    case Publish(_, _, _) => Loses(s, e, a) && Agreeing(Arriving(s, a), Key(s, a))
    case Resync(b, v) => b == a && Agreeing(Coming(s, a), v)
    case _ => Falls(s, e) && a !in s.env.unpublished && Agreeing(Cached(s, a), Key(s, a))
  }

  /** No fault of the run breaks the agreement for `a`, or something mends it after the last one that does. */
  predicate EndsAgreeing(s: System, agreeing: bool, es: seq<Event>, a: Account)
    decreases |es|
  {
    if es == [] then agreeing
    else EndsAgreeing(Step(s, es[0]), Mends(s, es[0], a) || (agreeing && !Breaks(s, es[0], a)), es[1..], a)
  }

  /** While a caller loads an account, nobody can put that account in the cache. */
  predicate LockInv(s: System) {
    && (!s.lock.Free? ==> s.lock.account !in s.states)
    && "" !in s.env.unpublished
  }

  lemma StepKeepsLock(s: System, e: Event)
    requires LockInv(s)
    ensures LockInv(Step(s, e))
  {
    hide Decode, Accepted, Changes;
  }

  lemma SendExtendsFlight(s: System, b: Account, v: bool)
    requires b != ""
    ensures Flight(Sent(s, Update(b, Some(v)))) == Flight(s) + [Msg(b, v)]
  {
    var u, m := Update(b, Some(v)), Msg(b, v);
    AcceptAppend(s.env.channel, [u]);
    assert AcceptAll([u]) == [m] by { assert [u][1..] == []; }
    var hand := if s.listener.InHand? then [s.listener.msg] else [];
    assert hand + (AcceptAll(s.env.channel) + [m]) == (hand + AcceptAll(s.env.channel)) + [m];
  }

  lemma SendArrives(s: System, b: Account, v: bool, a: Account)
    requires b != ""
    ensures Arriving(Sent(s, Update(b, Some(v))), a) == if a == b then Some(v) else Arriving(s, a)
  {
    SendExtendsFlight(s, b, v);
    ForAppend(a, Flight(s), [Msg(b, v)]);
    ForOne(a, Msg(b, v));
    hide For, Flight, AcceptAll;
    assert For(a, Flight(s)) + [] == For(a, Flight(s));
  }

  lemma NoiseArrives(s: System, wire: Wire, a: Account)
    requires Accepted(wire).None?
    ensures Arriving(Sent(s, wire), a) == Arriving(s, a)
  {
    AcceptAppend(s.env.channel, [wire]);
    assert AcceptAll([wire]) == [] by { assert [wire][1..] == []; }
    hide For, AcceptAll;
    assert Flight(Sent(s, wire)) == Flight(s);
  }

  lemma PublishComing(s: System, e: Event, a: Account)
    requires LockInv(s) && e.Publish?
    ensures Coming(Step(s, e), a) == if Loses(s, e, a) then Arriving(s, a) else Coming(s, a)
  {
    hide For, AcceptAll, Flight;
    var b := e.account;
    if b in s.env.unpublished {
      SendArrives(s, b, s.env.unpublished[b], a);
      var t := if e.sent && s.env.subscribed then Sent(s, Update(b, Some(s.env.unpublished[b]))) else s;
      SameFlight(t, Step(s, e), a);
    }
  }

  /** What `Arriving` reads. */
  lemma SameFlight(s: System, t: System, a: Account)
    requires t.env.channel == s.env.channel && t.states == s.states && t.lock == s.lock
    requires t.listener == s.listener || (!s.listener.InHand? && !t.listener.InHand?)
    ensures Arriving(t, a) == Arriving(s, a) && Cached(t, a) == Cached(s, a)
  {
    hide For, AcceptAll;
    assert Flight(t) == Flight(s);
  }

  lemma FallArrives(s: System, a: Account)
    requires s.listener == Waiting
    ensures Arriving(Down(s), a) == Cached(s, a)
  {
    assert Flight(Down(s)) == [];
  }

  lemma ReceiveArrives(s: System, a: Account)
    ensures Arriving(Received(s), a) == if LastFrame(s) then Cached(s, a) else Arriving(s, a)
  {
    if LastFrame(s) {
      FallArrives(s, a);
    } else if s.listener == Waiting && s.env.channel != [] {
      assert Flight(Received(s)) == Flight(s);
      hide For, AcceptAll, Flight;
    }
  }

  lemma DeliverTakesFlight(s: System, a: Account)
    requires s.listener.InHand? && s.lock == Free
    ensures var m := s.listener.msg;
      For(a, Flight(s)) == (if m.account == a then [m.enabled] else []) + For(a, Flight(Delivered(s)))
  {
    var m, t := s.listener.msg, Delivered(s);
    hide AcceptAll, For, Changes;
    assert Flight(s) == [m] + Flight(t);
    ForAppend(a, [m], Flight(t));
    ForOne(a, m);
  }

  lemma DeliverArrives(s: System, a: Account)
    ensures Arriving(Delivered(s), a) == Arriving(s, a)
  {
    hide For, Changes, Flight;
    if s.listener.InHand? && s.lock == Free {
      DeliverTakesFlight(s, a);
      var m, vs := s.listener.msg, For(a, Flight(Delivered(s)));
      var cached := Cached(Delivered(s), a);
      assert cached == if m.account == a then Some(m.enabled) else Cached(s, a);
      if m.account != a { assert [] + vs == vs; }
    }
  }

  lemma LoadArrives(s: System, e: Event, a: Account)
    requires LockInv(s) && (e.Ask? || e.Get? || e.Store?)
    ensures Arriving(Step(s, e), a) ==
      if e.Get? && s.lock == Loading(a) && Arriving(s, a) == None then Some(e.ok && Key(s, a)) else Arriving(s, a)
  {
    hide For, AcceptAll;
    assert Flight(Step(s, e)) == Flight(s);
  }

  /** What is coming for `a` after a step. */
  function NextComing(s: System, e: Event, a: Account): Option<bool> {
    match e
    case Write(b, v, ok) => if b == a && Taken(s, a) then Some(v) else Coming(s, a)
    case Publish(_, _, _) => if Loses(s, e, a) then Arriving(s, a) else Coming(s, a)
    case Get(ok) => if s.lock == Loading(a) && Coming(s, a) == None then Some(ok && Key(s, a)) else Coming(s, a)
    case _ => if Falls(s, e) && a !in s.env.unpublished then Cached(s, a) else Coming(s, a)
  }

  lemma ComingStep(s: System, e: Event, a: Account)
    requires LockInv(s)
    ensures Coming(Step(s, e), a) == NextComing(s, e, a)
  {
    hide Arriving, Cached, Key, Accepted, Changes, LastFrame, Flight, Got, Stored, LockInv;
    match e
    case Publish(_, _, _) => PublishComing(s, e, a);
    case Noise(wire) => if Accepted(wire).None? { NoiseArrives(s, wire, a); }
    case Receive => ReceiveArrives(s, a); KeepsUnpublished(s, e);
    case Deliver => DeliverArrives(s, a);
    case Ask(_) => LoadArrives(s, e, a);
    case Get(_) => LoadArrives(s, e, a); KeepsUnpublished(s, e);
    case Store => LoadArrives(s, e, a); KeepsUnpublished(s, e);
    case Crash => if s.listener == Waiting { FallArrives(s, a); }
    case _ => SameFlight(s, Step(s, e), a);
  }

  lemma KeepsUnpublished(s: System, e: Event)
    requires !e.Write? && !e.Publish?
    ensures Step(s, e).env.unpublished == s.env.unpublished
  {
  }

  lemma KeyStep(s: System, e: Event, a: Account)
    ensures Key(Step(s, e), a) ==
      match e
      case Write(b, v, ok) => if b == a && Taken(s, a) && ok then v else Key(s, a)
      case Resync(b, v) => if b == a then v else Key(s, a)
      case _ => Key(s, a)
  {
    hide Accepted, Changes, LastFrame;
  }

  /** One step, exactly: which events break the agreement for an account, and which restore it. */
  lemma StepAgrees(s: System, e: Event, a: Account)
    requires LockInv(s)
    ensures WillAgree(Step(s, e), a) <==> Mends(s, e, a) || (WillAgree(s, a) && !Breaks(s, e, a))
  {
    ComingStep(s, e, a);
    KeyStep(s, e, a);
    hide Coming, Arriving, Cached, Key, Step, Taken, LastFrame;
  }

  // ----- Invariants -----

  /** The cached value is the last delivered one, or else the loaded one; notices are changes. */
  predicate Remembers(s: System, a: Account) {
    var vs := For(a, s.heard.delivered);
    && Lookup(s.states, a) == LastOr(Lookup(s.loads.base, a), vs)
    && For(a, s.heard.notices) == Destutter(Lookup(s.loads.base, a), vs)
  }

  ghost predicate AskedInv(s: System) {
    && Distinct(s.loads.asked)
    && forall a :: a in s.loads.asked <==> a in s.loads.base || (s.lock.Loaded? && s.lock.account == a)
  }

  /** The messages that callback `i` has been called with. */
  function FiredTo(i: nat, fs: seq<Firing>): seq<Msg> {
    if fs == [] then []
    else
      var rest := FiredTo(i, fs[1..]);
      if fs[0].callback == i then [fs[0].msg] + rest else rest
  }

  /** The notices that callback `i` must have heard by now: all since its registration but the one it waits for. */
  function Due(s: System, i: nat): seq<Msg>
    requires i < |s.heard.since| && s.heard.since[i] <= |s.heard.notices|
  {
    if s.listener.Calling? && s.listener.next <= i < s.listener.upto && s.heard.notices != [] && s.heard.since[i] < |s.heard.notices|
    then s.heard.notices[s.heard.since[i]..|s.heard.notices| - 1]
    else s.heard.notices[s.heard.since[i]..]
  }

  ghost predicate CallInv(s: System) {
    && |s.heard.since| == s.callbacks
    && (forall i :: 0 <= i < s.callbacks ==> s.heard.since[i] <= |s.heard.notices|)
    && (s.listener.Calling? ==>
          && s.heard.notices != [] && s.heard.notices[|s.heard.notices| - 1] == s.listener.msg
          && s.listener.next <= s.listener.upto <= s.callbacks
          && (forall i :: 0 <= i < s.listener.upto ==> s.heard.since[i] < |s.heard.notices|)
          && (forall i :: s.listener.upto <= i < s.callbacks ==> s.heard.since[i] == |s.heard.notices|))
    && (forall i :: 0 <= i < s.callbacks ==> FiredTo(i, s.heard.fired) == Due(s, i))
    && (forall i: nat :: s.callbacks <= i ==> FiredTo(i, s.heard.fired) == [])
  }

  lemma DeliverKeepsRemembers(s: System, a: Account)
    requires Remembers(s, a)
    ensures Remembers(Delivered(s), a)
  {
    hide For, Destutter;
    if s.listener.InHand? && s.lock == Free {
      var m := s.listener.msg;
      var vs, ns := For(a, s.heard.delivered), For(a, s.heard.notices);
      assert vs + [] == vs && ns + [] == ns;
      ForAppend(a, s.heard.delivered, [m]);
      ForAppend(a, s.heard.notices, [m]);
      ForOne(a, m);
      DestutterAppend(Lookup(s.loads.base, a), For(a, s.heard.delivered), m.enabled);
    }
  }

  lemma ForOne(a: Account, m: Msg)
    ensures For(a, [m]) == if m.account == a then [m.enabled] else []
  {
    assert [m][1..] == [];
  }

  lemma StoreKeepsRemembers(s: System, a: Account)
    requires LockInv(s) && Remembers(s, a)
    ensures Remembers(Stored(s), a)
  {
    hide For;
  }

  lemma RemembersFrame(s: System, t: System, a: Account)
    requires Remembers(s, a)
    requires t.states == s.states && t.loads.base == s.loads.base
    requires t.heard.delivered == s.heard.delivered && t.heard.notices == s.heard.notices
    ensures Remembers(t, a)
  {
    hide For, Destutter;
  }

  lemma StepKeepsRemembers(s: System, e: Event, a: Account)
    requires LockInv(s) && Remembers(s, a)
    ensures Remembers(Step(s, e), a)
  {
    hide Remembers, Decode, Stored, Delivered;
    match e
    case Deliver => DeliverKeepsRemembers(s, a);
    case Store => StoreKeepsRemembers(s, a);
    case _ => RemembersFrame(s, Step(s, e), a);
  }

  /** Redis is read only for an account that is neither cached nor being loaded, and then it is loaded. */
  lemma StepKeepsAsked(s: System, e: Event)
    requires LockInv(s) && AskedInv(s) && forall a :: Remembers(s, a)
    ensures AskedInv(Step(s, e))
  {
    hide For, Destutter, Decode, Changes, Accepted;
    if e.Get? {
      if s.lock.Loading? { assert Remembers(s, s.lock.account); }
    } else if !e.Store? {
      var t := Step(s, e);
      assert t.loads.asked == s.loads.asked && t.loads.base == s.loads.base;
    }
  }

  lemma {:induction false} FiredToAppend(i: nat, fs: seq<Firing>, f: Firing)
    ensures FiredTo(i, fs + [f]) == FiredTo(i, fs) + if f.callback == i then [f.msg] else []
  {
    if fs == [] {
      assert fs + [f] == [f];
    } else {
      FiredToAppend(i, fs[1..], f);
      assert (fs + [f])[1..] == fs[1..] + [f];
    }
  }

  lemma CallKeepsCalls(s: System)
    requires CallInv(s)
    ensures CallInv(Called(s))
  {
    hide FiredTo;
    if s.listener.Calling? && s.listener.next < s.listener.upto {
      forall i: nat
        ensures i < s.callbacks ==> FiredTo(i, Called(s).heard.fired) == Due(Called(s), i)
        ensures s.callbacks <= i ==> FiredTo(i, Called(s).heard.fired) == []
      {
        CallFires(s, i);
        if i < s.callbacks { CallMakesDue(s, i); }
      }
      hide Due;
    } else {
      CallsEnd(s);
    }
  }

  lemma CallsEnd(s: System)
    requires CallInv(s) && (s.listener.Calling? ==> s.listener.next == s.listener.upto)
    ensures CallInv(Called(s))
  {
    hide FiredTo;
    forall i | 0 <= i < s.callbacks ensures Due(Called(s), i) == Due(s, i) {}
  }

  /** A call makes one notice due, for the callback that is called, and nothing for the others. */
  lemma CallMakesDue(s: System, i: nat)
    requires CallInv(s) && s.listener.Calling? && s.listener.next < s.listener.upto && i < s.callbacks
    ensures Due(Called(s), i) == if i == s.listener.next then Due(s, i) + [s.listener.msg] else Due(s, i)
  {
    hide FiredTo;
    if i == s.listener.next {
      var k, ns := s.heard.since[i], s.heard.notices;
      assert ns[k..] == ns[k..|ns| - 1] + [s.listener.msg];
    }
  }

  lemma CallFires(s: System, i: nat)
    requires s.listener.Calling? && s.listener.next < s.listener.upto
    ensures FiredTo(i, Called(s).heard.fired) ==
      if i == s.listener.next then FiredTo(i, s.heard.fired) + [s.listener.msg] else FiredTo(i, s.heard.fired)
  {
    FiredToAppend(i, s.heard.fired, Firing(s.listener.next, s.listener.msg));
    hide FiredTo;
    assert FiredTo(i, s.heard.fired) + [] == FiredTo(i, s.heard.fired);
  }

  lemma DeliverKeepsCalls(s: System)
    requires CallInv(s)
    ensures CallInv(Delivered(s))
  {
    hide FiredTo;
    var t := Delivered(s);
    if s.listener.InHand? && t.listener.Calling? {
      forall i | 0 <= i < s.callbacks ensures Due(t, i) == Due(s, i) {
        assert t.heard.notices[t.heard.since[i]..|t.heard.notices| - 1] == s.heard.notices[s.heard.since[i]..];
      }
    }
  }

  lemma RegisterKeepsCalls(s: System)
    requires CallInv(s)
    ensures CallInv(Registered(s))
  {
    hide FiredTo;
    var t := Registered(s);
    forall i | 0 <= i < s.callbacks ensures Due(t, i) == Due(s, i) {}
  }

  /** What `CallInv` reads: a step that keeps it, up to a listener that is not calling, keeps the invariant. */
  lemma CallFrame(s: System, t: System)
    requires CallInv(s)
    requires t.callbacks == s.callbacks && t.heard == s.heard
    requires t.listener == s.listener || (!s.listener.Calling? && !t.listener.Calling?)
    ensures CallInv(t)
  {
    hide FiredTo;
    forall i | 0 <= i < s.callbacks ensures Due(t, i) == Due(s, i) {}
  }

  lemma StepKeepsCalls(s: System, e: Event)
    requires CallInv(s)
    ensures CallInv(Step(s, e))
  {
    hide CallInv, Called, Delivered, Registered, Accepted;
    match e
    case Call => CallKeepsCalls(s);
    case Deliver => DeliverKeepsCalls(s);
    case Register => RegisterKeepsCalls(s);
    case _ => CallFrame(s, Step(s, e));
  }

  ghost predicate Inv(s: System) {
    && LockInv(s)
    && (forall a :: Remembers(s, a))
    && AskedInv(s)
    && CallInv(s)
  }

  lemma {:induction false} RunKeepsInv(s: System, es: seq<Event>)
    requires Inv(s)
    ensures Inv(Exec(s, es))
    decreases |es|
  {
    if es != [] {
      hide LockInv, Remembers, AskedInv, CallInv, Step;
      var t := Step(s, es[0]);
      StepKeepsLock(s, es[0]);
      forall a ensures Remembers(t, a) { StepKeepsRemembers(s, es[0], a); }
      StepKeepsAsked(s, es[0]);
      StepKeepsCalls(s, es[0]);
      RunKeepsInv(t, es[1..]);
    }
  }

  lemma InitialInv(redis: map<Account, string>)
    ensures Inv(Initial(redis))
  {
  }

  // ----- What holds over every run -----

  lemma {:induction false} RunAgrees(s: System, es: seq<Event>, a: Account)
    requires LockInv(s)
    ensures LockInv(Exec(s, es))
    ensures WillAgree(Exec(s, es), a) <==> EndsAgreeing(s, WillAgree(s, a), es, a)
    decreases |es|
  {
    hide LockInv, WillAgree, Step, Mends, Breaks;
    if es != [] {
      StepKeepsLock(s, es[0]);
      StepAgrees(s, es[0], a);
      RunAgrees(Step(s, es[0]), es[1..], a);
    }
  }

  /** Nothing for `a` is on its way. */
  predicate Settled(s: System, a: Account) { a !in s.env.unpublished && For(a, Flight(s)) == [] }

  lemma SettledIsComing(s: System, a: Account)
    requires LockInv(s) && Settled(s, a) && a in s.states
    ensures Coming(s, a) == Some(s.states[a])
    ensures WillAgree(s, a) <==> s.states[a] == Key(s, a)
  {
    hide For, Flight;
  }

  /**
   * Agreement, exactly, over every run: with nothing on its way for a cached account, the cache holds the
   * value of its key if and only if no fault broke the agreement for good.
   */
  lemma DrainedAgreement(redis: map<Account, string>, es: seq<Event>, a: Account)
    ensures var s := Exec(Initial(redis), es);
      a in s.states && Settled(s, a) ==>
        (s.states[a] == Key(s, a) <==> EndsAgreeing(Initial(redis), true, es, a))
  {
    assert WillAgree(Initial(redis), a);
    RunAgrees(Initial(redis), es, a);
    hide Exec, EndsAgreeing, LockInv, WillAgree, Settled;
    var s := Exec(Initial(redis), es);
    if a in s.states && Settled(s, a) { SettledIsComing(s, a); }
  }

  // ----- Runs without faults -----

  /** What goes right: no write, publish or read fails for good, and nobody ends the listener. */
  predicate Faultless(s: System, e: Event) {
    match e
    case Write(_, _, ok) => ok
    case Publish(_, sent, done) => done ==> sent
    case Resync(b, v) => v == Key(s, b)
    case Noise(wire) => !wire.Fatal?
    case Get(ok) => ok
    case Halt => false
    case Crash => false
    case _ => true
  }

  predicate FaultlessRun(s: System, es: seq<Event>)
    decreases |es|
  {
    es != [] ==> Faultless(s, es[0]) && FaultlessRun(Step(s, es[0]), es[1..])
  }

  /** A listener that is subscribed and that nothing is going to end. */
  predicate Healthy(s: System) {
    s.env.subscribed && s.listener != Ended && !s.stop && Fatal !in s.env.channel
  }

  lemma FaultlessKeepsHealthy(s: System, e: Event)
    requires Healthy(s) && Faultless(s, e)
    ensures Healthy(Step(s, e))
  {
    hide Accepted, Changes, Key;
  }

  lemma FaultlessBreaksNothing(s: System, e: Event, a: Account)
    requires Healthy(s) && Faultless(s, e) && WillAgree(s, a)
    ensures !Breaks(s, e, a)
  {
    hide Coming, Arriving, Cached, Key;
  }

  lemma {:induction false} FaultlessRunAgrees(s: System, es: seq<Event>, a: Account)
    requires LockInv(s) && Healthy(s) && FaultlessRun(s, es) && WillAgree(s, a)
    ensures LockInv(Exec(s, es)) && WillAgree(Exec(s, es), a) && Healthy(Exec(s, es))
    decreases |es|
  {
    hide LockInv, Healthy, Faultless, WillAgree, Step, Mends, Breaks;
    if es != [] {
      StepKeepsLock(s, es[0]);
      FaultlessKeepsHealthy(s, es[0]);
      FaultlessBreaksNothing(s, es[0], a);
      StepAgrees(s, es[0], a);
      FaultlessRunAgrees(Step(s, es[0]), es[1..], a);
    }
  }

  /**
   * The design's promise: after the first subscription is up, and while nothing fails, every cached account
   * with nothing on its way holds exactly the value of its key, whatever the interleaving.
   */
  lemma FaultlessAgreement(redis: map<Account, string>, es: seq<Event>, a: Account)
    requires FaultlessRun(Exec(Initial(redis), [Register, Up]), es)
    ensures var s := Exec(Exec(Initial(redis), [Register, Up]), es);
      a in s.states && Settled(s, a) ==> s.states[a] == Key(s, a)
  {
    var s0 := Subscribed(redis);
    hide Exec, FaultlessRun, LockInv, WillAgree, Settled, Healthy;
    FaultlessRunAgrees(s0, es, a);
    var s := Exec(s0, es);
    if a in s.states && Settled(s, a) { SettledIsComing(s, a); }
  }

  lemma Subscribed(redis: map<Account, string>) returns (s: System)
    ensures s == Exec(Initial(redis), [Register, Up])
    ensures LockInv(s) && Healthy(s) && forall a :: WillAgree(s, a)
  {
    s := Step(Step(Initial(redis), Register), Up);
    assert [Register, Up][1..] == [Up] && [Up][1..] == [];
    assert Exec(Initial(redis), [Register, Up]) == Exec(Step(Initial(redis), Register), [Up]) == Exec(s, []);
  }

  /**
   * The callbacks: each account's notices are its delivered messages with repetitions of the cached value
   * removed, and callback `i` has been called with exactly the notices since its registration, in order.
   */
  lemma CallbacksExact(redis: map<Account, string>, es: seq<Event>, i: nat, a: Account)
    ensures var s := Exec(Initial(redis), es);
      && For(a, s.heard.notices) == Destutter(Lookup(s.loads.base, a), For(a, s.heard.delivered))
      && (i < s.callbacks && !s.listener.Calling? ==>
            i < |s.heard.since| && s.heard.since[i] <= |s.heard.notices|
            && FiredTo(i, s.heard.fired) == s.heard.notices[s.heard.since[i]..])
  {
    hide For, Destutter, FiredTo;
    InitialInv(redis);
    RunKeepsInv(Initial(redis), es);
    assert Remembers(Exec(Initial(redis), es), a);
  }

  lemma ForSlice(a: Account, ms: seq<Msg>, lo: nat, hi: nat)
    requires lo <= hi <= |ms|
    ensures Alternates(For(a, ms)) ==> Alternates(For(a, ms[lo..hi]))
  {
    assert ms == ms[..lo] + (ms[lo..hi] + ms[hi..]);
    ForAppend(a, ms[..lo], ms[lo..hi] + ms[hi..]);
    ForAppend(a, ms[lo..hi], ms[hi..]);
    hide For;
    var x, y, z := For(a, ms[..lo]), For(a, ms[lo..hi]), For(a, ms[hi..]);
    var all := x + (y + z);
    if Alternates(all) {
      forall k | 0 < k < |y| ensures y[k] != y[k - 1] {
        assert all[|x| + k] == y[k] && all[|x| + (k - 1)] == y[k - 1];
      }
    }
  }

  /** Consecutive calls of one callback for one account carry opposite values, at every moment of every run. */
  lemma CallbacksAlternate(redis: map<Account, string>, es: seq<Event>, i: nat, a: Account)
    ensures Alternates(For(a, FiredTo(i, Exec(Initial(redis), es).heard.fired)))
  {
    hide For, Destutter, FiredTo;
    InitialInv(redis);
    RunKeepsInv(Initial(redis), es);
    var s := Exec(Initial(redis), es);
    CallbacksExact(redis, es, i, a);
    DestutterAlternates(Lookup(s.loads.base, a), For(a, s.heard.delivered));
    var ns := s.heard.notices;
    if i < s.callbacks {
      var k := s.heard.since[i];
      ForSlice(a, ns, k, |ns|);
      assert ns[k..|ns|] == ns[k..];
      if k < |ns| { ForSlice(a, ns, k, |ns| - 1); }
    } else {
      ForEmpty(a);
    }
  }

  lemma ForEmpty(a: Account)
    ensures For(a, []) == []
  {
  }

  /** Redis is read at most once per account over the monitor's life. */
  lemma RedisReadOnce(redis: map<Account, string>, es: seq<Event>)
    ensures Distinct(Exec(Initial(redis), es).loads.asked)
  {
    InitialInv(redis);
    RunKeepsInv(Initial(redis), es);
  }

  /** A load that nobody interrupts does to the cache what the contract of `IsEnabled` says. */
  lemma UninterruptedLoad(s: System, a: Account, ok: bool)
    requires s.lock == Free && a !in s.states
    ensures var t := Exec(s, [Ask(a), Get(ok), Store]);
      && t.states == s.states[a := LoadResult(if ok then Value(Lookup(s.env.redis, a)) else Unavailable)]
      && t.loads.asked == s.loads.asked + [a]
      && t.lock == Free && t.env == s.env && t.heard == s.heard && t.listener == s.listener
  {
    Run3(s, Ask(a), Get(ok), Store);
    hide Exec;
  }

  function Calls(k: nat): seq<Event> { if k == 0 then [] else Calls(k - 1) + [Call] }

  lemma ExecSnoc(s: System, es: seq<Event>, e: Event)
    ensures Exec(s, es + [e]) == Step(Exec(s, es), e)
  {
    ExecAppend(s, es, [e]);
    hide Step;
    assert [e][1..] == [];
  }

  lemma {:induction false} CallsFire(s: System, k: nat)
    requires s.listener.Calling? && s.listener.next == 0 && k <= s.listener.upto
    ensures Exec(s, Calls(k)) == s.(
      listener := s.listener.(next := k), heard := s.heard.(fired := s.heard.fired + Round(s.listener.msg, k)))
  {
    var m := s.listener.msg;
    if k == 0 {
      assert s.heard.fired + Round(m, 0) == s.heard.fired;
    } else {
      CallsFire(s, k - 1);
      ExecSnoc(s, Calls(k - 1), Call);
      hide Exec;
      assert s.heard.fired + Round(m, k) == (s.heard.fired + Round(m, k - 1)) + [Firing(k - 1, m)];
    }
  }

  /** The calls of one round, and then back to waiting. */
  lemma RoundFires(s: System)
    requires s.listener.Calling? && s.listener.next == 0
    ensures var m, n := s.listener.msg, s.listener.upto;
      Exec(s, Calls(n) + [Call]) == s.(
        listener := Waiting, heard := s.heard.(fired := s.heard.fired + Round(m, n)))
  {
    CallsFire(s, s.listener.upto);
    ExecSnoc(s, Calls(s.listener.upto), Call);
    hide Exec, Calls, Round;
  }

  lemma ReceiveThenDeliver(s: System)
    requires s.lock == Free && s.listener == Waiting && s.env.channel != [] && !LastFrame(s)
    ensures Exec(s, [Receive]) == Received(s)
    ensures Exec(s, [Receive, Deliver]) == Delivered(Received(s))
  {
    ExecSnoc(s, [], Receive);
    ExecSnoc(s, [Receive], Deliver);
    assert [] + [Receive] == [Receive] && [Receive] + [Deliver] == [Receive, Deliver];
    hide Received, Delivered;
  }

  /** What one frame does to the cache, and the notice it leaves for the callbacks. */
  lemma FrameEffect(s: System)
    requires s.lock == Free && s.listener == Waiting && s.env.channel != [] && !LastFrame(s)
    ensures var d, ms := Delivered(Received(s)), AcceptAll([s.env.channel[0]]);
      && d.states == DeliverAll(s.states, ms)
      && d.heard.fired == s.heard.fired && d.env == s.env.(channel := s.env.channel[1..])
      && var ns := Notices(s.states, ms);
        if ns == [] then d.listener == Waiting else |ns| == 1 && d.listener == Calling(ns[0], 0, s.callbacks)
  {
    var wire := s.env.channel[0];
    assert [wire][1..] == [];
    hide Accepted;
    if Accepted(wire).Some? {
      var m := Accepted(wire).value;
      assert AcceptAll([wire]) == [m] && [m][1..] == [];
    }
  }

  /** A frame that nobody interrupts does to the cache and the callbacks what the contract of `Handle` says. */
  lemma UninterruptedDelivery(s: System) returns (es: seq<Event>)
    requires s.lock == Free && s.listener == Waiting && s.env.channel != [] && !LastFrame(s)
    ensures forall i :: 0 <= i < |es| ==> es[i] in {Receive, Deliver, Call}
    ensures var t, ms := Exec(s, es), AcceptAll([s.env.channel[0]]);
      && t.states == DeliverAll(s.states, ms)
      && t.heard.fired == s.heard.fired + Rounds(Notices(s.states, ms), s.callbacks)
      && t.listener == Waiting && t.env == s.env.(channel := s.env.channel[1..])
  {
    es := [Receive, Deliver];
    ReceiveThenDeliver(s);
    FrameEffect(s);
    hide Exec, Calls, Round, Delivered, Received, AcceptAll, Notices, DeliverAll;
    var d, ns := Delivered(Received(s)), Notices(s.states, AcceptAll([s.env.channel[0]]));
    if ns != [] {
      var calls := Calls(s.callbacks) + [Call];
      CallsOnly(s.callbacks);
      RoundFires(d);
      ExecAppend(s, es, calls);
      es := es + calls;
      assert ns[1..] == [] && ns == [ns[0]];
    }
  }

  lemma {:induction false} CallsOnly(k: nat)
    ensures forall i :: 0 <= i < |Calls(k)| ==> Calls(k)[i] == Call
  {
    if k > 0 { CallsOnly(k - 1); }
  }

  // ----- The end of a listener -----

  predicate EndedInv(s: System) {
    && (s.listener == Ended ==> !s.env.subscribed)
    && (!s.env.subscribed ==> s.env.channel == [] && !s.listener.InHand? && !s.listener.Calling?)
  }

  lemma StepKeepsEnded(s: System, e: Event)
    requires EndedInv(s)
    ensures EndedInv(Step(s, e))
  {
    hide Accepted, Changes, Decode;
  }

  lemma {:induction false} RunKeepsEnded(s: System, es: seq<Event>)
    requires EndedInv(s)
    ensures EndedInv(Exec(s, es))
    decreases |es|
  {
    hide EndedInv, Step;
    if es != [] {
      StepKeepsEnded(s, es[0]);
      RunKeepsEnded(Step(s, es[0]), es[1..]);
    }
  }

  /**
   * Over every run, no listener means no subscription: what is published meanwhile reaches no later listener,
   * and a new one starts with nothing to read.
   */
  lemma NoListenerHearsNothing(redis: map<Account, string>, es: seq<Event>, a: Account, sent: bool, done: bool)
    ensures var s := Exec(Initial(redis), es);
      s.listener == Ended ==>
        && Flight(s) == [] && Flight(Step(s, Publish(a, sent, done))) == [] && Flight(Step(s, Register)) == []
        && !Step(s, Register).env.subscribed
  {
    RunKeepsEnded(Initial(redis), es);
    hide Exec;
  }

  /** `stop` deafens a listener that waits, and a listener in the middle of a message once it is done with it. */
  lemma StopDeafens(s: System)
    ensures Step(s, Halt).stop && Step(s, Halt) == s.(stop := true)
    ensures s.listener == Waiting || s.listener == Ended ==> Deaf(Step(s, Halt))
    ensures s.stop && s.listener.Calling? && s.listener.next == s.listener.upto ==> Deaf(Step(s, Call))
  {
  }

  // ----- Subscribing after a stop -----

  /**
   * After `subscribe` on a listener that is waiting or has ended, the next usable frame is lost and ends the
   * thread exactly if the listener had been stopped and was still waiting for that frame.
   */
  lemma SubscribeAfterStop(s: System, wire: Wire)
    requires s.lock == Free && (s.listener == Ended || s.listener == Waiting) && !wire.Fatal?
    ensures var t := Step(s, Register);
      && t.listener == Waiting && t.callbacks == s.callbacks + 1
      && (Step(t.(env := t.env.(channel := [wire])), Receive).listener == Ended <==> s.stop && s.listener == Waiting)
  {
    hide Accepted;
  }

  /** No `subscribe` of the run finds the listener ended. */
  predicate NoRestart(s: System, es: seq<Event>)
    decreases |es|
  {
    es != [] ==> !(es[0].Register? && s.lock == Free && s.listener == Ended) && NoRestart(Step(s, es[0]), es[1..])
  }

  /** A waiting listener that was stopped, or one that has ended. */
  predicate Deaf(s: System) { s.listener == Ended || (s.listener == Waiting && s.stop) }

  lemma DeafStep(s: System, e: Event)
    requires Deaf(s) && !(e.Register? && s.lock == Free && s.listener == Ended)
    ensures var t := Step(s, e);
      Deaf(t) && t.heard.fired == s.heard.fired && t.heard.delivered == s.heard.delivered
  {
    hide Accepted, Changes, Decode;
  }

  /**
   * A listener stopped while it waits is deaf for good: until a `subscribe` finds it ended, no message is
   * delivered and no callback is called, not even one that was registered after the stop.
   */
  lemma {:induction false} StoppedIsDeaf(s: System, es: seq<Event>)
    requires Deaf(s) && NoRestart(s, es)
    ensures var t := Exec(s, es);
      Deaf(t) && t.heard.fired == s.heard.fired && t.heard.delivered == s.heard.delivered
    decreases |es|
  {
    hide Deaf, Step;
    if es != [] {
      DeafStep(s, es[0]);
      StoppedIsDeaf(Step(s, es[0]), es[1..]);
    }
  }

  // ----- A run can always be drained -----

  predicate Drained(s: System) {
    s.lock == Free && s.listener == Waiting && s.env.channel == [] && s.env.unpublished == map[]
  }

  /** How far the listener is from waiting for the next frame. */
  function ListenerRank(s: System): nat {
    match s.listener
    case InHand(_) => 2
    case Calling(_, _, _) => 1
    case _ => 0
  }

  function CallsLeft(s: System): nat {
    if s.listener.Calling? && s.listener.next <= s.listener.upto then s.listener.upto - s.listener.next else 0
  }

  function LockRank(s: System): nat {
    match s.lock
    case Free => 0
    case Loaded(_, _) => 1
    case Loading(_) => 2
  }

  /** A step that brings the system closer to being drained, with nothing going wrong. */
  ghost function NextStep(s: System): (e: Event)
    requires !Drained(s)
    ensures Faultless(s, e)
  {
    if s.lock.Loading? then Get(true)
    else if s.lock.Loaded? then Store
    else if s.listener.InHand? then Deliver
    else if s.listener.Calling? then Call
    else if s.env.channel != [] then Receive
    else if s.env.unpublished != map[] then var a :| a in s.env.unpublished; Publish(a, true, true)
    else Up
  }

  lemma NextStepKeepsComing(s: System, a: Account)
    requires LockInv(s) && Healthy(s) && !Drained(s) && Coming(s, a).Some?
    ensures Coming(Step(s, NextStep(s)), a) == Coming(s, a)
  {
    ComingStep(s, NextStep(s), a);
    hide Coming, Arriving, Cached, Key, Step;
  }

  /**
   * From every state with a healthy listener, the parties can finish what they started: some run without
   * faults drains the system, changes no key, and brings the cache to what was coming.
   */
  lemma {:induction false} CanDrain(s: System) returns (es: seq<Event>)
    requires LockInv(s) && Healthy(s)
    ensures FaultlessRun(s, es) && LockInv(Exec(s, es))
    ensures var t := Exec(s, es);
      && Drained(t) && t.env.redis == s.env.redis
      && forall a :: Coming(s, a).Some? ==> Coming(t, a) == Coming(s, a)
    decreases |s.env.unpublished|, |s.env.channel|, ListenerRank(s), CallsLeft(s), LockRank(s)
  {
    if Drained(s) {
      es := [];
    } else {
      var e := NextStep(s);
      StepKeepsLock(s, e);
      FaultlessKeepsHealthy(s, e);
      hide Decode, Accepted, Changes, Coming, LockInv, Faultless;
      forall a | Coming(s, a).Some? ensures Coming(Step(s, e), a) == Coming(s, a) { NextStepKeepsComing(s, a); }
      NextStepKeepsKeys(s);
      NextStepAdvances(s);
      hide Step, NextStep, Drained;
      var rest := CanDrain(Step(s, e));
      es := [e] + rest;
      assert es[1..] == rest;
    }
  }

  lemma NextStepKeepsKeys(s: System)
    requires !Drained(s)
    ensures Step(s, NextStep(s)).env.redis == s.env.redis
  {
    hide Decode, Accepted, Changes;
  }

  predicate Less(s: System, t: System) {
    || |t.env.unpublished| < |s.env.unpublished|
    || (|t.env.unpublished| == |s.env.unpublished| && (
          || |t.env.channel| < |s.env.channel|
          || (|t.env.channel| == |s.env.channel| && (
                || ListenerRank(t) < ListenerRank(s)
                || (ListenerRank(t) == ListenerRank(s) && (
                      || CallsLeft(t) < CallsLeft(s)
                      || (CallsLeft(t) == CallsLeft(s) && LockRank(t) < LockRank(s))))))))
  }

  lemma NextStepAdvances(s: System)
    requires Healthy(s) && !Drained(s)
    ensures Less(s, Step(s, NextStep(s)))
  {
    hide Decode, Accepted, Changes, Key;
  }

  lemma {:induction false} ExecAppend(s: System, es: seq<Event>, fs: seq<Event>)
    ensures Exec(s, es + fs) == Exec(Exec(s, es), fs)
    decreases |es|
  {
    hide Step;
    if es == [] {
      assert es + fs == fs;
    } else {
      ExecAppend(Step(s, es[0]), es[1..], fs);
      assert (es + fs)[1..] == es[1..] + fs;
    }
  }

  /**
   * Every reachable state with a healthy listener can be drained without faults, and then every account with
   * something cached or coming holds its key's value if and only if the run so far ended agreeing.
   */
  lemma AgreementReachable(redis: map<Account, string>, es: seq<Event>) returns (fs: seq<Event>)
    requires Healthy(Exec(Initial(redis), es))
    ensures var s, t := Exec(Initial(redis), es), Exec(Initial(redis), es + fs);
      && FaultlessRun(s, fs) && Drained(t) && t.env.redis == s.env.redis
      && forall a :: Coming(s, a).Some? ==>
           a in t.states && t.states[a] == Coming(s, a).value
           && (t.states[a] == Key(t, a) <==> EndsAgreeing(Initial(redis), true, es, a))
  {
    hide Exec, EndsAgreeing, FaultlessRun, Healthy, Settled, Coming;
    var s := Exec(Initial(redis), es);
    RunAgrees(Initial(redis), es, "");
    fs := CanDrain(s);
    ExecAppend(Initial(redis), es, fs);
    var t := Exec(Initial(redis), es + fs);
    forall a | Coming(s, a).Some?
      ensures a in t.states && t.states[a] == Coming(s, a).value
      ensures t.states[a] == Key(t, a) <==> EndsAgreeing(Initial(redis), true, es, a)
    {
      InitiallyAgrees(redis, a);
      RunAgrees(Initial(redis), es, a);
      DrainedComing(t, a);
    }
  }

  lemma InitiallyAgrees(redis: map<Account, string>, a: Account)
    ensures WillAgree(Initial(redis), a) && LockInv(Initial(redis))
  {
  }

  lemma DrainedComing(t: System, a: Account)
    requires Drained(t)
    ensures Coming(t, a) == Lookup(t.states, a)
  {
    assert Flight(t) == [];
  }

  // ----- Each environment fault really breaks the agreement -----

  predicate Disagrees(s: System, a: Account) {
    s.lock == Free && Settled(s, a) && a in s.states && s.states[a] != Key(s, a)
  }

  lemma Unfold(s: System, e: Event, es: seq<Event>)
    requires es != [] && es[0] == e
    ensures Exec(s, es) == Exec(Step(s, e), es[1..])
  {
    hide Step;
  }

  /** Redis fails during the one load of an enabled account: it stays disabled until its next toggle. */
  lemma FailedLoadBreaks()
    ensures Disagrees(Exec(Initial(map["a" := ENABLED_VALUE]), [Ask("a"), Get(false), Store]), "a")
  {
    var s0 := Initial(map["a" := ENABLED_VALUE]);
    var s1 := Step(s0, Ask("a"));
    var s2 := Step(s1, Get(false));
    hide Exec;
    Run3(s0, Ask("a"), Get(false), Store);
    assert Step(s2, Store).states["a"] == false;
  }

  lemma Run3(s: System, e: Event, f: Event, g: Event)
    ensures Exec(s, [e, f, g]) == Step(Step(Step(s, e), f), g)
  {
    hide Step;
    assert [e, f, g][1..] == [f, g] && [f, g][1..] == [g] && [g][1..] == [];
    Unfold(s, e, [e, f, g]);
    Unfold(Step(s, e), f, [f, g]);
    Unfold(Step(Step(s, e), f), g, [g]);
  }

  /** A message published before the listener's subscription, after the account was loaded, is lost for good. */
  lemma UnheardPublishBreaks()
    ensures Disagrees(
      Exec(Initial(map[]), [Ask("a"), Get(true), Store] + [Write("a", true, true), Publish("a", true, true), Register]), "a")
  {
    var s0 := Initial(map[]);
    var fs := [Write("a", true, true), Publish("a", true, true), Register];
    Run3(s0, Ask("a"), Get(true), Store);
    var s3 := Exec(s0, [Ask("a"), Get(true), Store]);
    ExecAppend(s0, [Ask("a"), Get(true), Store], fs);
    Run3(s3, fs[0], fs[1], fs[2]);
    hide Exec;
    var s4 := Step(s3, fs[0]);
    assert Key(s4, "a");
    var s5 := Step(s4, fs[1]);
    assert s5.env.unpublished == map[] && s5.states == map["a" := false];
  }

  /** A subscribed listener, and a writer that gave up on the key of an account it means to enable. */
  const GAVE_UP := Initial(map[]).(
    env := Env(map[], map["a" := true], true, []), listener := Waiting, callbacks := 1,
    heard := Heard([], [], [], [0]))

  lemma WriterGivesUp()
    ensures Exec(Initial(map[]), [Register, Up, Write("a", true, false)]) == GAVE_UP
  {
    Run3(Initial(map[]), Register, Up, Write("a", true, false));
    hide Exec;
  }

  /** The writer gives up on the key and publishes all the same: the cache follows the message, not the key. */
  lemma FailedWriteBreaks()
    ensures Disagrees(
      Exec(Initial(map[]), [Register, Up, Write("a", true, false)] + [Publish("a", true, true), Receive, Deliver]), "a")
  {
    var fs := [Publish("a", true, true), Receive, Deliver];
    WriterGivesUp();
    ExecAppend(Initial(map[]), [Register, Up, Write("a", true, false)], fs);
    Run3(GAVE_UP, fs[0], fs[1], fs[2]);
    hide Exec;
    var s4 := Step(GAVE_UP, fs[0]);
    assert s4.env.channel == [Update("a", Some(true))] && s4.env.unpublished == map[];
    var s5 := Step(s4, Receive);
    assert s5.listener == InHand(Msg("a", true)) && s5.env.channel == [];
    var s6 := Step(s5, Deliver);
    assert s6.states == map["a" := true] && Flight(s6) == [];
  }
}
