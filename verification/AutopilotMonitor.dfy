/** The per-account autopilot cache of the execution engine, and its pub/sub listener. */
module AutopilotMonitor {
  import opened Seqs

  type Account = string

  const ENABLED_VALUE := "enabled"
  const DISABLED_VALUE := "disabled"

  /** The outcome of reading an account's key: its text (or no key), or an exception. */
  datatype Reply = Value(text: Option<string>) | Unavailable

  /**
   * What the listener gets: a control frame, data that is not a usable object, a parsed payload, or data that
   * raises an exception outside the inner handler, such as bytes that are not UTF-8 or no data at all.
   */
  datatype Wire = Control | Malformed | Fatal | Update(accountId: Account, enabled: Option<bool>)

  datatype Msg = Msg(account: Account, enabled: bool)

  /** One invocation of a callback; callbacks are named by the order of their registration. */
  datatype Firing = Firing(callback: nat, msg: Msg)

  function Decode(text: Option<string>): bool { text == Some(ENABLED_VALUE) }

  function Encode(enabled: bool): string { if enabled then ENABLED_VALUE else DISABLED_VALUE }

  function LoadResult(reply: Reply): bool { reply.Value? && Decode(reply.text) }

  /** The texts under a key: "enabled" means enabled; any other text, or none, means disabled. */
  lemma KeyTexts(text: Option<string>, enabled: bool)
    ensures Decode(text) <==> text == Some("enabled")
    ensures Encode(enabled) == (if enabled then "enabled" else "disabled") && Decode(Some(Encode(enabled))) == enabled
  {
  }

  /** The message the listener acts on; control frames, malformed data and empty ids are skipped. */
  function Accepted(m: Wire): Option<Msg> {
    if m.Update? && m.accountId != ""
    then Some(Msg(m.accountId, m.enabled.Some? && m.enabled.value))
    else None
  }

  function AcceptAll(ms: seq<Wire>): seq<Msg> {
    if ms == [] then []
    else
      var rest := AcceptAll(ms[1..]);
      match Accepted(ms[0]) case Some(m) => [m] + rest case None => rest
  }

  predicate Changes(states: map<Account, bool>, m: Msg) {
    m.account !in states || states[m.account] != m.enabled
  }

  /** The values that `ms` carries for account `a`, in order. */
  function For(a: Account, ms: seq<Msg>): seq<bool> {
    if ms == [] then []
    else
      var rest := For(a, ms[1..]);
      if ms[0].account == a then [ms[0].enabled] + rest else rest
  }

  function Lookup<K, V>(m: map<K, V>, k: K): Option<V> { if k in m then Some(m[k]) else None }

  /** The cache after delivering `ms` one after another. */
  function DeliverAll(states: map<Account, bool>, ms: seq<Msg>): map<Account, bool>
    decreases |ms|
  {
    if ms == [] then states else DeliverAll(states[ms[0].account := ms[0].enabled], ms[1..])
  }

  /** The messages among `ms` that change the cache when they are delivered. */
  function Notices(states: map<Account, bool>, ms: seq<Msg>): seq<Msg>
    decreases |ms|
  {
    if ms == [] then []
    else
      var rest := Notices(states[ms[0].account := ms[0].enabled], ms[1..]);
      if Changes(states, ms[0]) then [ms[0]] + rest else rest
  }

  /** `vs` without the values that repeat the one before them; `before` precedes the first. */
  function Destutter(before: Option<bool>, vs: seq<bool>): seq<bool>
    decreases |vs|
  {
    if vs == [] then []
    else
      var rest := Destutter(Some(vs[0]), vs[1..]);
      if before == Some(vs[0]) then rest else [vs[0]] + rest
  }

  function LastOr(before: Option<bool>, vs: seq<bool>): Option<bool> {
    if vs == [] then before else Some(vs[|vs| - 1])
  }

  /** Calling callbacks `0..n` with `m`, in registration order. */
  function Round(m: Msg, n: nat): seq<Firing> {
    if n == 0 then [] else Round(m, n - 1) + [Firing(n - 1, m)]
  }

  /** A round calls every callback once, in the order of registration, with the message. */
  lemma {:induction false} RoundCallsEach(m: Msg, n: nat)
    ensures |Round(m, n)| == n && forall i :: 0 <= i < n ==> Round(m, n)[i] == Firing(i, m)
  {
    if n > 0 { RoundCallsEach(m, n - 1); }
  }

  function Rounds(ms: seq<Msg>, n: nat): seq<Firing> {
    if ms == [] then [] else Round(ms[0], n) + Rounds(ms[1..], n)
  }

  /** For each account, the notices are its messages with repetitions of the cached value removed. */
  lemma {:induction false} NoticesDestutter(states: map<Account, bool>, ms: seq<Msg>, a: Account)
    ensures For(a, Notices(states, ms)) == Destutter(Lookup(states, a), For(a, ms))
    ensures Lookup(DeliverAll(states, ms), a) == LastOr(Lookup(states, a), For(a, ms))
    decreases |ms|
  {
    if ms != [] {
      var after := states[ms[0].account := ms[0].enabled];
      var rest := Notices(after, ms[1..]);
      NoticesDestutter(after, ms[1..], a);
      assert ([ms[0]] + rest)[1..] == rest;
      var vs := For(a, ms[1..]);
      if ms[0].account == a {
        assert ([ms[0].enabled] + vs)[1..] == vs;
        assert LastOr(Lookup(states, a), [ms[0].enabled] + vs) == LastOr(Lookup(after, a), vs);
      }
    }
  }

  predicate Alternates(vs: seq<bool>) {
    forall i :: 0 < i < |vs| ==> vs[i] != vs[i - 1]
  }

  /** With repetitions removed, neighbours carry opposite values. */
  lemma {:induction false} DestutterAlternates(before: Option<bool>, vs: seq<bool>)
    ensures Alternates(Destutter(before, vs))
    ensures var d := Destutter(before, vs); d != [] && before.Some? ==> d[0] != before.value
    decreases |vs|
  {
    if vs != [] { DestutterAlternates(Some(vs[0]), vs[1..]); }
  }

  lemma {:induction false} DestutterAppend(before: Option<bool>, vs: seq<bool>, v: bool)
    ensures Destutter(before, vs + [v]) == Destutter(before, vs) + if LastOr(before, vs) == Some(v) then [] else [v]
    decreases |vs|
  {
    if vs == [] {
      assert vs + [v] == [v];
    } else {
      DestutterAppend(Some(vs[0]), vs[1..], v);
      assert (vs + [v])[1..] == vs[1..] + [v];
      assert LastOr(before, vs) == LastOr(Some(vs[0]), vs[1..]);
    }
  }

  lemma {:induction false} ForAppend(a: Account, ms: seq<Msg>, ns: seq<Msg>)
    ensures For(a, ms + ns) == For(a, ms) + For(a, ns)
  {
    if ms == [] {
      assert ms + ns == ns;
    } else {
      var rest := ms[1..];
      ForAppend(a, rest, ns);
      assert (ms + ns)[0] == ms[0] && (ms + ns)[1..] == rest + ns;
      var v, x, y := [ms[0].enabled], For(a, rest), For(a, ns);
      assert (v + x) + y == v + (x + y);
    }
  }

  lemma {:induction false} AcceptAppend(ms: seq<Wire>, ns: seq<Wire>)
    ensures AcceptAll(ms + ns) == AcceptAll(ms) + AcceptAll(ns)
  {
    hide Accepted;
    if ms == [] {
      assert ms + ns == ns;
    } else {
      AcceptAppend(ms[1..], ns);
      assert (ms + ns)[1..] == ms[1..] + ns;
    }
  }

  lemma {:induction false} DeliverAllAppend(states: map<Account, bool>, ms: seq<Msg>, ns: seq<Msg>)
    ensures DeliverAll(states, ms + ns) == DeliverAll(DeliverAll(states, ms), ns)
    ensures Notices(states, ms + ns) == Notices(states, ms) + Notices(DeliverAll(states, ms), ns)
    decreases |ms|
  {
    if ms == [] {
      assert ms + ns == ns;
    } else {
      DeliverAllAppend(states[ms[0].account := ms[0].enabled], ms[1..], ns);
      assert (ms + ns)[1..] == ms[1..] + ns;
    }
  }

  /** The number of frames the listener gets through: up to the stop event, or to a frame that ends the thread. */
  function Reached(wires: seq<Wire>, stopAt: nat): (n: nat)
    ensures n <= |wires| && n <= stopAt
    ensures forall i :: 0 <= i < n ==> !wires[i].Fatal?
    ensures n < |wires| ==> n == stopAt || wires[n].Fatal?
  {
    if wires == [] || stopAt == 0 || wires[0].Fatal? then 0 else 1 + Reached(wires[1..], stopAt - 1)
  }

  datatype Thread = NotStarted | Running | Finished

  /**
   * The monitor's own state. `reply` parameters stand for what Redis answers; `asked` and `fired` record
   * the calls that leave the monitor.
   */
  class AutopilotMonitor {
    var states: map<Account, bool>
    var callbacks: nat
    var thread: Thread
    var stopSet: bool
    ghost var asked: seq<Account>
    ghost var fired: seq<Firing>

    constructor ()
      ensures states == map[] && callbacks == 0 && thread == NotStarted && !stopSet
      ensures asked == [] && fired == []
    {
      states, callbacks, thread, stopSet := map[], 0, NotStarted, false;
      asked, fired := [], [];
    }

    method LoadState(account: Account, reply: Reply) returns (enabled: bool)
      modifies this`states, this`asked
      ensures enabled == LoadResult(reply) && (enabled <==> reply == Value(Some("enabled")))
      ensures states == old(states)[account := enabled] && asked == old(asked) + [account]
    {
      asked := asked + [account];
      match reply
      case Value(text) =>
        if text.Some? { enabled := text.value == ENABLED_VALUE; } else { enabled := false; }
        states := states[account := enabled];
      case Unavailable =>
        states := states[account := false];
        enabled := false;
    }

    /** Redis is asked only for an account that is not cached; the answer is always the cached value. */
    method IsEnabled(account: Account, reply: Reply) returns (enabled: bool)
      modifies this`states, this`asked
      ensures account in states && enabled == states[account]
      ensures account in old(states) ==> states == old(states) && asked == old(asked)
      ensures account !in old(states) ==>
                states == old(states)[account := LoadResult(reply)] && asked == old(asked) + [account]
    {
      if account !in states {
        enabled := LoadState(account, reply);
      } else {
        enabled := states[account];
      }
    }

    /** Starts a listener unless one is alive; only then is the stop event cleared. */
    method Subscribe()
      modifies this`callbacks, this`thread, this`stopSet
      ensures callbacks == old(callbacks) + 1 && thread == Running
      ensures stopSet == (old(thread) == Running && old(stopSet))
    {
      callbacks := callbacks + 1;
      if thread != Running {
        stopSet := false;
        thread := Running;
      }
    }

    method FireAll(m: Msg)
      modifies this`fired
      ensures fired == old(fired) + Round(m, callbacks)
    {
      for i := 0 to callbacks
        invariant fired == old(fired) + Round(m, i)
      {
        fired := fired + [Firing(i, m)];
      }
    }

    /** One iteration of the listener, past the check of the stop event. */
    method Handle(wire: Wire)
      requires !wire.Fatal?
      modifies this`states, this`fired
      ensures states == DeliverAll(old(states), AcceptAll([wire]))
      ensures fired == old(fired) + Rounds(Notices(old(states), AcceptAll([wire])), callbacks)
      ensures !wire.Update? || wire.accountId == "" ==> states == old(states) && fired == old(fired)
      ensures wire.Update? && wire.accountId != "" ==>
                var a, v := wire.accountId, wire.enabled == Some(true);
                && states == old(states)[a := v]
                && (a in old(states) && old(states)[a] == v ==> fired == old(fired))
                && (!(a in old(states) && old(states)[a] == v) ==>
                      && |fired| == |old(fired)| + callbacks && fired[..|old(fired)|] == old(fired)
                      && forall i :: 0 <= i < callbacks ==> fired[|old(fired)| + i] == Firing(i, Msg(a, v)))
    {
      assert [wire][1..] == [];
      if !wire.Update? { return; }
      var account, enabled := wire.accountId, wire.enabled == Some(true);
      if account == "" { return; }
      var m := Msg(account, enabled);
      assert AcceptAll([wire]) == [m] && [m][1..] == [];
      var changed := account !in states || states[account] != enabled;
      states := states[account := enabled];
      if changed {
        FireAll(m);
        RoundCallsEach(m, callbacks);
        hide Round;
        assert Rounds([m], callbacks) == Round(m, callbacks);
      }
    }

    /**
     * The listener loop over the frames that arrive; `stopAt` is the first iteration that finds the stop
     * event set. That iteration's frame is dropped, and the thread ends; so it does at a fatal frame.
     */
    method Listen(wires: seq<Wire>, stopAt: nat)
      modifies this`states, this`fired, this`thread
      ensures var seen := AcceptAll(wires[..Reached(wires, stopAt)]);
        && states == DeliverAll(old(states), seen)
        && fired == old(fired) + Rounds(Notices(old(states), seen), callbacks)
      ensures thread == if Reached(wires, stopAt) < |wires| then Finished else old(thread)
    {
      hide Accepted, Changes, Round, Reached;
      var i := 0;
      while i < |wires|
        invariant 0 <= i <= |wires| && i <= stopAt
        invariant forall k :: 0 <= k < i ==> !wires[k].Fatal?
        invariant states == DeliverAll(old(states), AcceptAll(wires[..i]))
        invariant fired == old(fired) + Rounds(Notices(old(states), AcceptAll(wires[..i])), callbacks)
        invariant thread == old(thread)
      {
        if i == stopAt || wires[i].Fatal? {
          thread := Finished;
          break;
        }
        ghost var before := states;
        Handle(wires[i]);
        ghost var seen, one := AcceptAll(wires[..i]), AcceptAll([wires[i]]);
        assert wires[..i + 1] == wires[..i] + [wires[i]];
        AcceptAppend(wires[..i], [wires[i]]);
        DeliverAllAppend(old(states), seen, one);
        RoundsConcat(Notices(old(states), seen), Notices(before, one), callbacks);
        i := i + 1;
      }
      ReachedExactly(wires, stopAt, i);
      assert wires[..|wires|] == wires;
    }

    method Stop()
      modifies this`stopSet
      ensures stopSet
    {
      stopSet := true;
    }
  }

  lemma ReachedExactly(wires: seq<Wire>, stopAt: nat, n: nat)
    requires n <= |wires| && n <= stopAt
    requires forall i :: 0 <= i < n ==> !wires[i].Fatal?
    requires n < |wires| ==> n == stopAt || wires[n].Fatal?
    ensures n == Reached(wires, stopAt)
  {
    hide Reached;
  }

  lemma {:induction false} RoundsConcat(ms: seq<Msg>, ns: seq<Msg>, n: nat)
    ensures Rounds(ms + ns, n) == Rounds(ms, n) + Rounds(ns, n)
  {
    hide Round;
    if ms == [] {
      assert ms + ns == ns;
    } else {
      var rest := ms[1..];
      RoundsConcat(rest, ns, n);
      assert (ms + ns)[0] == ms[0] && (ms + ns)[1..] == rest + ns;
      var x, y, z := Round(ms[0], n), Rounds(rest, n), Rounds(ns, n);
      assert (x + y) + z == x + (y + z);
    }
  }
}
