/** The paper-trading ledger: virtual balance, open positions, price updates. */
module SandboxStore {
  import opened Seqs

  datatype Direction = Buy | Sell

  /** `id` n stands for the text "sandbox-n". */
  datatype Position = Position(
    id: nat, instrument: string, direction: Direction, size: real, entryPrice: real, currentPrice: real)

  datatype Params = Params(instrument: string, direction: Direction, size: real, entryPrice: real)

  datatype Ledger = Ledger(enabled: bool, balance: real, positions: seq<Position>, nextId: nat)

  datatype Op = Toggle | Place(params: Params) | Close(id: nat) | UpdatePrices(prices: map<string, real>)

  const INITIAL_BALANCE: real := 100000.0
  const INITIAL := Ledger(false, INITIAL_BALANCE, [], 1)

  function Pnl(p: Position): real {
    var diff := p.currentPrice - p.entryPrice;
    if p.direction == Buy then diff * p.size else -diff * p.size
  }

  function TotalPnl(ps: seq<Position>): real { if ps == [] then 0.0 else TotalPnl(ps[..|ps| - 1]) + Pnl(ps[|ps| - 1]) }

  function PortfolioValue(l: Ledger): real { l.balance + TotalPnl(l.positions) }

  function Opened(params: Params, id: nat): Position {
    Position(id, params.instrument, params.direction, params.size, params.entryPrice, params.entryPrice)
  }

  /** The first position with `id`. */
  function Find(id: nat, ps: seq<Position>): Option<Position> {
    if ps == [] then None else if ps[0].id == id then Some(ps[0]) else Find(id, ps[1..])
  }

  function Without(id: nat, ps: seq<Position>): (r: seq<Position>)
    ensures forall p :: p in r <==> p in ps && p.id != id
  {
    if ps == [] then []
    else
      var rest := Without(id, ps[1..]);
      if ps[0].id == id then rest else [ps[0]] + rest
  }

  function Priced(p: Position, prices: map<string, real>): Position {
    if p.instrument in prices then p.(currentPrice := prices[p.instrument]) else p
  }

  function PricedAll(ps: seq<Position>, prices: map<string, real>): (r: seq<Position>)
    ensures |r| == |ps|
    ensures forall i :: 0 <= i < |ps| ==> r[i] == Priced(ps[i], prices)
  {
    if ps == [] then [] else PricedAll(ps[..|ps| - 1], prices) + [Priced(ps[|ps| - 1], prices)]
  }

  function Step(l: Ledger, op: Op): Ledger {
    match op
    case Toggle =>
      if l.enabled then Ledger(false, INITIAL_BALANCE, [], l.nextId) else l.(enabled := true)
    case Place(params) => l.(positions := l.positions + [Opened(params, l.nextId)], nextId := l.nextId + 1)
    case Close(id) =>
      (match Find(id, l.positions)
       case None => l
       case Some(p) => l.(positions := Without(id, l.positions), balance := l.balance + Pnl(p)))
    case UpdatePrices(prices) => l.(positions := PricedAll(l.positions, prices))
  }

  function Exec(l: Ledger, ops: seq<Op>): Ledger
    decreases |ops|
  {
    if ops == [] then l else Exec(Step(l, ops[0]), ops[1..])
  }

  // ----- The specification: signed size times price change -----

  function SignedSize(p: Position): real { if p.direction == Buy then p.size else -p.size }

  function Change(p: Position, prices: map<string, real>): real {
    if p.instrument in prices then prices[p.instrument] - p.currentPrice else 0.0
  }

  function Gain(ps: seq<Position>, prices: map<string, real>): real {
    if ps == [] then 0.0
    else Gain(ps[..|ps| - 1], prices) + SignedSize(ps[|ps| - 1]) * Change(ps[|ps| - 1], prices)
  }

  /** The gains of all price updates of the run since the last reset; `before` were made before it. */
  function Earned(l: Ledger, ops: seq<Op>, before: real): real
    decreases |ops|
  {
    if ops == [] then before else Earned(Step(l, ops[0]), ops[1..], EarnedBy(l, ops[0], before))
  }

  function EarnedBy(l: Ledger, op: Op, before: real): real {
    match op
    case Toggle => if l.enabled then 0.0 else before
    case UpdatePrices(prices) => before + Gain(l.positions, prices)
    case _ => before
  }

  ghost predicate DistinctIds(ps: seq<Position>) {
    forall i, j :: 0 <= i < j < |ps| ==> ps[i].id != ps[j].id
  }

  /** Open ids are pairwise distinct, and the next one is larger than all of them. */
  ghost predicate FreshIds(l: Ledger) {
    DistinctIds(l.positions) && forall p :: p in l.positions ==> p.id < l.nextId
  }

  lemma {:induction false} TotalAppend(ps: seq<Position>, qs: seq<Position>)
    ensures TotalPnl(ps + qs) == TotalPnl(ps) + TotalPnl(qs)
  {
    if qs == [] {
      assert ps + qs == ps;
    } else {
      var all := ps + qs;
      TotalAppend(ps, qs[..|qs| - 1]);
      assert all[..|all| - 1] == ps + qs[..|qs| - 1];
    }
  }

  lemma {:induction false} WithoutKeepsIds(id: nat, ps: seq<Position>)
    requires DistinctIds(ps)
    ensures DistinctIds(Without(id, ps))
  {
    if ps != [] {
      WithoutKeepsIds(id, ps[1..]);
      forall p | p in Without(id, ps[1..]) ensures p.id != ps[0].id {
        assert p in ps[1..];
      }
    }
  }

  lemma {:induction false} WithoutAbsent(id: nat, ps: seq<Position>)
    requires forall p :: p in ps ==> p.id != id
    ensures Without(id, ps) == ps
  {
    if ps != [] { WithoutAbsent(id, ps[1..]); }
  }

  /** With distinct ids, the positions that close loses are exactly the one it books. */
  lemma {:induction false} CloseBooksAll(id: nat, ps: seq<Position>)
    requires DistinctIds(ps)
    ensures TotalPnl(ps) == TotalPnl(Without(id, ps)) + match Find(id, ps) case Some(p) => Pnl(p) case None => 0.0
  {
    hide Pnl;
    if ps != [] {
      var rest := ps[1..];
      assert ps == [ps[0]] + rest;
      TotalAppend([ps[0]], rest);
      if ps[0].id == id {
        WithoutAbsent(id, rest);
      } else {
        CloseBooksAll(id, rest);
        TotalAppend([ps[0]], Without(id, rest));
      }
    }
  }

  lemma PricedPnl(p: Position, prices: map<string, real>)
    ensures Pnl(Priced(p, prices)) == Pnl(p) + SignedSize(p) * Change(p, prices)
  {
    if p.instrument in prices {
      var a, b, e, z := prices[p.instrument], p.currentPrice, p.entryPrice, p.size;
      assert (a - e) * z == (b - e) * z + z * (a - b);
    }
  }

  lemma {:induction false} UpdateEarnsGain(ps: seq<Position>, prices: map<string, real>)
    ensures TotalPnl(PricedAll(ps, prices)) == TotalPnl(ps) + Gain(ps, prices)
  {
    hide Pnl, Priced, SignedSize, Change;
    if ps != [] {
      var before, p := ps[..|ps| - 1], ps[|ps| - 1];
      UpdateEarnsGain(before, prices);
      PricedPnl(p, prices);
      var r := PricedAll(ps, prices);
      assert r[..|r| - 1] == PricedAll(before, prices);
    }
  }

  lemma PlaceIsFree(ps: seq<Position>, params: Params, id: nat)
    ensures TotalPnl(ps + [Opened(params, id)]) == TotalPnl(ps)
  {
    TotalAppend(ps, [Opened(params, id)]);
    assert Pnl(Opened(params, id)) == 0.0;
    hide Pnl;
    assert [Opened(params, id)][..0] == [];
  }

  lemma StepKeepsIds(l: Ledger, op: Op)
    requires FreshIds(l)
    ensures FreshIds(Step(l, op))
  {
    hide Pnl, Priced;
    match op
    case Toggle =>
    case Place(params) => forall p | p in l.positions ensures p.id != l.nextId {}
    case Close(id) => WithoutKeepsIds(id, l.positions);
    case UpdatePrices(prices) => PricedKeepsIds(l.positions, prices);
  }

  lemma PricedKeepsIds(ps: seq<Position>, prices: map<string, real>)
    ensures var r := PricedAll(ps, prices); |r| == |ps| && forall i :: 0 <= i < |r| ==> r[i].id == ps[i].id
    ensures DistinctIds(ps) ==> DistinctIds(PricedAll(ps, prices))
    ensures forall q :: q in PricedAll(ps, prices) ==> exists p :: p in ps && p.id == q.id
  {
    hide PricedAll;
    var r := PricedAll(ps, prices);
    forall q | q in r ensures exists p :: p in ps && p.id == q.id {
      var i :| 0 <= i < |r| && r[i] == q;
      assert ps[i] in ps;
    }
  }

  /** Opening and closing conserve the portfolio value; a price update moves it by exactly its gain. */
  lemma StepValue(l: Ledger, op: Op)
    requires FreshIds(l)
    ensures op.Place? || op.Close? ==> PortfolioValue(Step(l, op)) == PortfolioValue(l)
    ensures op.UpdatePrices? ==> PortfolioValue(Step(l, op)) == PortfolioValue(l) + Gain(l.positions, op.prices)
    ensures op.Toggle? ==> PortfolioValue(Step(l, op)) == if l.enabled then INITIAL_BALANCE else PortfolioValue(l)
  {
    assert TotalPnl([]) == 0.0;
    hide Pnl, TotalPnl, Find, Without, PricedAll, Gain, DistinctIds, Opened;
    match op
    case Toggle =>
    case Place(params) => PlaceIsFree(l.positions, params, l.nextId);
    case Close(id) => CloseBooksAll(id, l.positions);
    case UpdatePrices(prices) => UpdateEarnsGain(l.positions, prices);
  }

  lemma {:induction false} RunValue(l: Ledger, ops: seq<Op>, before: real)
    requires FreshIds(l) && PortfolioValue(l) == INITIAL_BALANCE + before
    ensures FreshIds(Exec(l, ops))
    ensures PortfolioValue(Exec(l, ops)) == INITIAL_BALANCE + Earned(l, ops, before)
    decreases |ops|
  {
    if ops != [] {
      StepKeepsIds(l, ops[0]);
      StepValue(l, ops[0]);
      hide Step, FreshIds, PortfolioValue, Gain;
      RunValue(Step(l, ops[0]), ops[1..], EarnedBy(l, ops[0], before));
    }
  }

  /**
   * Conservation, over every run: the portfolio is worth 100000 plus the sum, over the price updates since
   * the last reset, of signed size times price change; however positions were opened and closed.
   */
  lemma Conservation(ops: seq<Op>)
    ensures PortfolioValue(Exec(INITIAL, ops)) == 100000.0 + Earned(INITIAL, ops, 0.0)
  {
    RunValue(INITIAL, ops, 0.0);
  }

  // ----- The trades, read off the log -----

  /**
   * What a trade is worth at the end of `ops`: its signed size times the change of its instrument's price, from
   * the price it was asked at to the last one of an update while it was open. `latest` is that price so far.
   */
  function Worth(params: Params, id: nat, latest: real, ops: seq<Op>): real
    decreases |ops|
  {
    if ops == [] || ops[0] == Close(id) then
      (if params.direction == Buy then params.size else -params.size) * (latest - params.entryPrice)
    else if ops[0].UpdatePrices? && params.instrument in ops[0].prices
    then Worth(params, id, ops[0].prices[params.instrument], ops[1..])
    else Worth(params, id, latest, ops[1..])
  }

  /** The worth of all trades placed in `ops`, the first of which gets the number `id`. */
  function TradesWorth(id: nat, ops: seq<Op>): real
    decreases |ops|
  {
    if ops == [] then 0.0
    else if ops[0].Place? then Worth(ops[0].params, id, ops[0].params.entryPrice, ops[1..]) + TradesWorth(id + 1, ops[1..])
    else TradesWorth(id, ops[1..])
  }

  /** The sandbox is never switched off in `ops`. */
  predicate NoReset(enabled: bool, ops: seq<Op>)
    decreases |ops|
  {
    ops != [] ==> if ops[0].Toggle? then !enabled && NoReset(true, ops[1..]) else NoReset(enabled, ops[1..])
  }

  function Asked(p: Position): Params { Params(p.instrument, p.direction, p.size, p.entryPrice) }

  /** The worth, at the end of `ops`, of positions that are open now. */
  function OpenWorth(ps: seq<Position>, ops: seq<Op>): real {
    if ps == [] then 0.0
    else OpenWorth(ps[..|ps| - 1], ops) + Worth(Asked(ps[|ps| - 1]), ps[|ps| - 1].id, ps[|ps| - 1].currentPrice, ops)
  }

  lemma WorthIsPnl(p: Position, ops: seq<Op>)
    requires ops == [] || ops[0] == Close(p.id)
    ensures Worth(Asked(p), p.id, p.currentPrice, ops) == Pnl(p)
  {
    var diff := p.currentPrice - p.entryPrice;
    assert diff * p.size == p.size * diff && (-diff) * p.size == (-p.size) * diff;
  }

  lemma {:induction false} OpenWorthNow(ps: seq<Position>)
    ensures OpenWorth(ps, []) == TotalPnl(ps)
  {
    hide Pnl, Worth;
    if ps != [] {
      OpenWorthNow(ps[..|ps| - 1]);
      WorthIsPnl(ps[|ps| - 1], []);
    }
  }

  lemma {:induction false} OpenWorthAppend(ps: seq<Position>, qs: seq<Position>, ops: seq<Op>)
    ensures OpenWorth(ps + qs, ops) == OpenWorth(ps, ops) + OpenWorth(qs, ops)
  {
    hide Worth;
    if qs == [] {
      assert ps + qs == ps;
    } else {
      var all := ps + qs;
      OpenWorthAppend(ps, qs[..|qs| - 1], ops);
      assert all[..|all| - 1] == ps + qs[..|qs| - 1];
    }
  }

  lemma OpenWorthOne(p: Position, ops: seq<Op>)
    ensures OpenWorth([p], ops) == Worth(Asked(p), p.id, p.currentPrice, ops)
  {
    hide Worth;
    assert [p][..0] == [];
  }

  /** An event that does not concern the positions leaves their worth to the rest of the log. */
  lemma {:induction false} OpenWorthPasses(ps: seq<Position>, ops: seq<Op>)
    requires ops != [] && (ops[0].Toggle? || ops[0].Place? || (ops[0].Close? && forall p :: p in ps ==> p.id != ops[0].id))
    ensures OpenWorth(ps, ops) == OpenWorth(ps, ops[1..])
  {
    if ps != [] {
      OpenWorthPasses(ps[..|ps| - 1], ops);
      assert ps[|ps| - 1] in ps;
    }
  }

  lemma {:induction false} OpenWorthUpdates(ps: seq<Position>, ops: seq<Op>)
    requires ops != [] && ops[0].UpdatePrices?
    ensures OpenWorth(ps, ops) == OpenWorth(PricedAll(ps, ops[0].prices), ops[1..])
  {
    if ps != [] {
      var before, p := ps[..|ps| - 1], ps[|ps| - 1];
      OpenWorthUpdates(before, ops);
      var r := PricedAll(ps, ops[0].prices);
      assert r[..|r| - 1] == PricedAll(before, ops[0].prices);
      assert Worth(Asked(p), p.id, p.currentPrice, ops) ==
        Worth(Asked(Priced(p, ops[0].prices)), p.id, Priced(p, ops[0].prices).currentPrice, ops[1..]);
    }
  }

  /** A close fixes the worth of its position, and leaves that of the others to the rest of the log. */
  lemma {:induction false} OpenWorthCloses(ps: seq<Position>, ops: seq<Op>)
    requires ops != [] && ops[0].Close? && DistinctIds(ps)
    ensures OpenWorth(ps, ops) == OpenWorth(Without(ops[0].id, ps), ops[1..]) +
      match Find(ops[0].id, ps) case Some(p) => Pnl(p) case None => 0.0
  {
    hide Pnl, Worth;
    if ps != [] {
      var id, p, rest := ops[0].id, ps[0], ps[1..];
      assert ps == [p] + rest;
      OpenWorthAppend([p], rest, ops);
      OpenWorthOne(p, ops);
      if p.id == id {
        WithoutAbsent(id, rest);
        WorthIsPnl(p, ops);
        OpenWorthPasses(rest, ops);
      } else {
        OpenWorthCloses(rest, ops);
        OpenWorthAppend([p], Without(id, rest), ops[1..]);
        OpenWorthOne(p, ops[1..]);
        OpenWorthPasses([p], ops);
      }
    }
  }

  lemma WorthOfPlaced(ps: seq<Position>, params: Params, id: nat, ops: seq<Op>)
    ensures OpenWorth(ps + [Opened(params, id)], ops) == OpenWorth(ps, ops) + Worth(params, id, params.entryPrice, ops)
  {
    OpenWorthAppend(ps, [Opened(params, id)], ops);
    OpenWorthOne(Opened(params, id), ops);
    hide OpenWorth, Worth;
  }

  /** One step moves worth between the balance, the open positions and the trades to come, and loses none. */
  lemma StepWorth(l: Ledger, ops: seq<Op>)
    requires FreshIds(l) && ops != [] && NoReset(l.enabled, ops)
    ensures var t := Step(l, ops[0]);
      && NoReset(t.enabled, ops[1..])
      && l.balance + OpenWorth(l.positions, ops) + TradesWorth(l.nextId, ops) ==
           t.balance + OpenWorth(t.positions, ops[1..]) + TradesWorth(t.nextId, ops[1..])
  {
    hide Worth, OpenWorth, Pnl, Find, Without, PricedAll, Opened;
    match ops[0]
    case Toggle => OpenWorthPasses(l.positions, ops);
    case Place(params) =>
      OpenWorthPasses(l.positions, ops);
      WorthOfPlaced(l.positions, params, l.nextId, ops[1..]);
    case Close(id) =>
      OpenWorthCloses(l.positions, ops);
      if Find(id, l.positions).None? { NotFound(id, l.positions); }
    case UpdatePrices(prices) => OpenWorthUpdates(l.positions, ops);
  }

  lemma {:induction false} NotFound(id: nat, ps: seq<Position>)
    requires Find(id, ps).None?
    ensures Without(id, ps) == ps
  {
    if ps != [] { NotFound(id, ps[1..]); }
  }

  /**
   * From any state, over every run without a reset: the portfolio ends worth the balance, plus what the open
   * positions come to, plus what the trades placed in the run come to, as they were asked for.
   */
  lemma {:induction false} TradesAddUp(l: Ledger, ops: seq<Op>)
    requires FreshIds(l) && NoReset(l.enabled, ops)
    ensures PortfolioValue(Exec(l, ops)) == l.balance + OpenWorth(l.positions, ops) + TradesWorth(l.nextId, ops)
    decreases |ops|
  {
    if ops == [] {
      OpenWorthNow(l.positions);
    } else {
      StepWorth(l, ops);
      StepKeepsIds(l, ops[0]);
      hide Step, FreshIds, PortfolioValue, OpenWorth, TradesWorth, NoReset;
      TradesAddUp(Step(l, ops[0]), ops[1..]);
    }
  }

  lemma {:induction false} ExecAppend(l: Ledger, es: seq<Op>, fs: seq<Op>)
    ensures Exec(l, es + fs) == Exec(Exec(l, es), fs)
    decreases |es|
  {
    hide Step;
    if es == [] {
      assert es + fs == fs;
    } else {
      ExecAppend(Step(l, es[0]), es[1..], fs);
      assert (es + fs)[1..] == es[1..] + fs;
    }
  }

  function Placed(ops: seq<Op>): nat { if ops == [] then 0 else Placed(ops[1..]) + if ops[0].Place? then 1 else 0 }

  lemma {:induction false} NumbersGoOn(l: Ledger, ops: seq<Op>)
    ensures Exec(l, ops).nextId == l.nextId + Placed(ops)
    decreases |ops|
  {
    if ops != [] { NumbersGoOn(Step(l, ops[0]), ops[1..]); }
  }

  /** The part of the run up to its last reset: empty, or ending with a toggle that switches the sandbox off. */
  predicate EndsWithReset(before: seq<Op>) {
    before == [] || (before[|before| - 1] == Toggle && Exec(INITIAL, before[..|before| - 1]).enabled)
  }

  lemma {:induction false} LastReset(l: Ledger, ops: seq<Op>) returns (n: nat)
    ensures n <= |ops| && (n == 0 || (ops[n - 1] == Toggle && Exec(l, ops[..n - 1]).enabled))
    ensures NoReset(Exec(l, ops[..n]).enabled, ops[n..])
    decreases |ops|
  {
    if NoReset(l.enabled, ops) {
      n := 0;
      assert ops[..0] == [] && ops[0..] == ops;
    } else {
      var t := Step(l, ops[0]);
      var m := LastReset(t, ops[1..]);
      n := m + 1;
      assert ops[..n][1..] == ops[1..][..m] && ops[n..] == ops[1..][m..];
      if m > 0 {
        assert ops[..m][1..] == ops[1..][..m - 1];
      } else {
        assert ops[1..][0..] == ops[1..] && ops[1..][..0] == [] && ops[..0] == [];
      }
    }
  }

  /**
   * The law of the ledger, over every run: cut at its last reset, the portfolio is worth 100000 plus the worth
   * of the trades placed since, each (signed size as asked) times (last price of the asked instrument while it
   * was open - price asked).
   */
  lemma LawOfTrades(ops: seq<Op>) returns (n: nat)
    ensures n <= |ops| && EndsWithReset(ops[..n]) && NoReset(false, ops[n..])
    ensures PortfolioValue(Exec(INITIAL, ops)) == 100000.0 + TradesWorth(1 + Placed(ops[..n]), ops[n..])
  {
    n := LastReset(INITIAL, ops);
    hide NoReset, TradesWorth, PortfolioValue, FreshIds;
    var before, rest := ops[..n], ops[n..];
    assert ops == before + rest;
    if n > 0 { assert before[..n - 1] == ops[..n - 1]; }
    ExecAppend(INITIAL, before, rest);
    NumbersGoOn(INITIAL, before);
    ResetState(before);
    TradesAddUp(Exec(INITIAL, before), rest);
  }

  lemma ResetState(before: seq<Op>)
    requires EndsWithReset(before)
    ensures var l := Exec(INITIAL, before); !l.enabled && l.balance == 100000.0 && l.positions == [] && FreshIds(l)
  {
    if before != [] {
      var most := before[..|before| - 1];
      ExecAppend(INITIAL, most, [Toggle]);
      assert before == most + [Toggle] && [Toggle][1..] == [];
      assert Exec(Exec(INITIAL, most), [Toggle]) == Exec(Step(Exec(INITIAL, most), Toggle), []);
    }
  }

  /** Two open positions with one id would break it: one is booked, both are dropped. */
  lemma RepeatedIdsLoseMoney(p: Position)
    requires Pnl(p) != 0.0
    ensures var l := Ledger(true, INITIAL_BALANCE, [p, p], p.id + 1);
      PortfolioValue(Step(l, Close(p.id))) != PortfolioValue(l)
  {
    hide Pnl;
    var l := Ledger(true, INITIAL_BALANCE, [p, p], p.id + 1);
    assert [p, p][1..] == [p] && [p][1..] == [] && [p, p][..1] == [p] && [p][..0] == [];
    assert Without(p.id, [p, p]) == Without(p.id, [p]) == Without(p.id, []);
    assert TotalPnl([p]) == TotalPnl([]) + Pnl(p);
  }

  class SandboxStore {
    var enabled: bool
    var virtualBalance: real
    var positions: seq<Position>
    var nextId: nat

    ghost function State(): Ledger
      reads this
    {
      Ledger(enabled, virtualBalance, positions, nextId)
    }

    ghost predicate Valid()
      reads this
    {
      FreshIds(State())
    }

    constructor ()
      ensures Valid() && State() == INITIAL
    {
      enabled, virtualBalance, positions, nextId := false, INITIAL_BALANCE, [], 1;
    }

    method ToggleSandbox()
      requires Valid()
      modifies this
      ensures Valid() && State() == Step(old(State()), Toggle)
      ensures enabled == !old(enabled) && nextId == old(nextId)
      ensures old(enabled) ==> virtualBalance == 100000.0 && positions == []
      ensures !old(enabled) ==> virtualBalance == old(virtualBalance) && positions == old(positions)
    {
      var wasEnabled := enabled;
      enabled := !wasEnabled;
      if wasEnabled { virtualBalance, positions := INITIAL_BALANCE, []; }
    }

    method PlaceTrade(params: Params)
      requires Valid()
      modifies this
      ensures Valid() && State() == Step(old(State()), Place(params))
      ensures Value() == old(Value())
      ensures enabled == old(enabled) && virtualBalance == old(virtualBalance) && nextId == old(nextId) + 1
      ensures |positions| == |old(positions)| + 1 && positions[..|old(positions)|] == old(positions)
      ensures var p := positions[|old(positions)|];
        && p.id == old(nextId) && p.instrument == params.instrument && p.direction == params.direction
        && p.size == params.size && p.entryPrice == params.entryPrice && p.currentPrice == params.entryPrice
    {
      StepKeepsIds(State(), Place(params));
      StepValue(State(), Place(params));
      hide FreshIds, TotalPnl;
      var position := Position(nextId, params.instrument, params.direction, params.size, params.entryPrice, params.entryPrice);
      nextId := nextId + 1;
      positions := positions + [position];
    }

    method ClosePosition(id: nat)
      requires Valid()
      modifies this
      ensures Valid() && State() == Step(old(State()), Close(id))
      ensures Value() == old(Value())
      ensures enabled == old(enabled) && nextId == old(nextId)
      ensures forall p :: p in positions <==> p in old(positions) && p.id != id
    {
      StepKeepsIds(State(), Close(id));
      StepValue(State(), Close(id));
      hide FreshIds, TotalPnl;
      var pos := Find(id, positions);
      if pos.None? {
        NotFound(id, positions);
        return;
      }
      var pnl := Pnl(pos.value);
      positions := Without(id, positions);
      virtualBalance := virtualBalance + pnl;
    }

    method UpdateAll(prices: map<string, real>)
      requires Valid()
      modifies this
      ensures Valid() && State() == Step(old(State()), UpdatePrices(prices))
      ensures Value() == old(Value()) + Gain(old(positions), prices)
      ensures enabled == old(enabled) && nextId == old(nextId) && virtualBalance == old(virtualBalance)
      ensures |positions| == |old(positions)| && forall i :: 0 <= i < |positions| ==>
        var p := old(positions)[i];
        positions[i] == if p.instrument in prices then p.(currentPrice := prices[p.instrument]) else p
    {
      StepKeepsIds(State(), UpdatePrices(prices));
      StepValue(State(), UpdatePrices(prices));
      hide FreshIds, TotalPnl, Gain;
      positions := PricedAll(positions, prices);
    }

    function Value(): real
      reads this
    {
      virtualBalance + TotalPnl(positions)
    }
  }
}
