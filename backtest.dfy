/** The rolling backtester: each signal opens a hypothetical position at the
    slippage-adjusted mid, kept in a FIFO; each snapshot matures at most the
    head position once the horizon has elapsed and the mid is defined, and
    records its pnl in ticks. */
module Backtest {
  import opened Wrappers
  import opened Numeric
  import opened Schemas

  /** A pending position: the originating signal and its slippage-adjusted entry price. */
  datatype Position = Position(sig: Signal, entry: real)

  /** +1 for buy pressure, -1 otherwise. */
  function Direction(kind: SignalKind): (d: real)
    ensures d == 1.0 || d == -1.0
    ensures d > 0.0 <==> kind == BuyPressure
  {
    if kind == BuyPressure then 1.0 else -1.0
  }

  /** Entry price after slippage: shifted by slippage * tickSize against the position
      (up for a buy, down for a sell). */
  function EntryPrice(kind: SignalKind, mid: real, slippage: real, tickSize: real): (e: real)
    ensures (e - mid) * Direction(kind) == slippage * tickSize
  {
    if kind == BuyPressure then mid + slippage * tickSize else mid - slippage * tickSize
  }

  /** Profit in ticks of a position opened at `entry` and closed at `exit`. */
  function PnlTicks(kind: SignalKind, entry: real, exit: real, tickSize: real): (p: real)
    requires tickSize != 0.0
    ensures p * tickSize == (exit - entry) * Direction(kind)
  {
    (exit - entry) * Direction(kind) / tickSize
  }

  /** With a positive tick size the pnl is positive exactly when the price moved in
      the signal's direction, and zero exactly when it did not move. */
  lemma PnlSign(kind: SignalKind, entry: real, exit: real, tickSize: real)
    requires tickSize > 0.0
    ensures PnlTicks(kind, entry, exit, tickSize) > 0.0 <==>
      (kind == BuyPressure && exit > entry) || (kind == SellPressure && exit < entry)
    ensures PnlTicks(kind, entry, exit, tickSize) == 0.0 <==> exit == entry
  {
    var p := PnlTicks(kind, entry, exit, tickSize);
    FactorSign(p, tickSize);
  }

  /** Slippage costs exactly `slippage` ticks on every trade, whichever its direction. */
  lemma SlippageCost(kind: SignalKind, mid: real, exit: real, slippage: real, tickSize: real)
    requires tickSize != 0.0
    ensures PnlTicks(kind, EntryPrice(kind, mid, slippage, tickSize), exit, tickSize)
         == PnlTicks(kind, mid, exit, tickSize) - slippage
  {
    var e := EntryPrice(kind, mid, slippage, tickSize);
    var p := PnlTicks(kind, e, exit, tickSize);
    var q := PnlTicks(kind, mid, exit, tickSize);
    assert (p - q + slippage) * tickSize == 0.0;
    FactorSign(p - q + slippage, if tickSize > 0.0 then tickSize else -tickSize);
  }

  /** The number of positive entries. */
  function Wins(xs: seq<real>): (w: nat)
    ensures w <= |xs|
  {
    if xs == [] then 0 else Wins(xs[..|xs| - 1]) + (if xs[|xs| - 1] > 0.0 then 1 else 0)
  }

  /** The fraction of positive entries, 0 for no entries. */
  function WinRate(xs: seq<real>): (r: real)
    ensures 0.0 <= r <= 1.0
    ensures xs == [] ==> r == 0.0
    ensures xs != [] ==> r * (|xs| as real) == Wins(xs) as real
  {
    if xs == [] then 0.0 else (Wins(xs) as real) / (|xs| as real)
  }

  /** The mean of the entries, 0 for no entries. */
  function AveragePnl(xs: seq<real>): (r: real)
    ensures xs == [] ==> r == 0.0
    ensures xs != [] ==> r * (|xs| as real) == Sum(xs)
  {
    if xs == [] then 0.0 else Mean(xs)
  }

  /** The aggregate report of `summary`. */
  datatype Report = Report(trades: nat, avgPnlTicks: real, winRate: real, buySignals: nat, sellSignals: nat)

  /** The number of positions of the given kind. */
  function CountKind(ps: seq<Position>, kind: SignalKind): (c: nat)
    ensures c <= |ps|
  {
    if ps == [] then 0
    else CountKind(ps[..|ps| - 1], kind) + (if ps[|ps| - 1].sig.kind == kind then 1 else 0)
  }

  /** An evaluation closes a position: same kind and entry, exit no earlier than the
      horizon after the signal, pnl computed from entry and exit. */
  ghost predicate Closes(ev: Evaluation, pos: Position, tickSize: real, horizon: real): (c: bool)
    ensures c ==> ev.pnlTicks * tickSize == (ev.exitMid - ev.entryMid) * Direction(ev.signalKind)
  {
    tickSize != 0.0 &&
    ev.signalKind == pos.sig.kind &&
    ev.entryMid == pos.entry &&
    ev.ts - pos.sig.ts >= horizon &&
    ev.pnlTicks == PnlTicks(pos.sig.kind, pos.entry, ev.exitMid, tickSize)
  }

  class RollingBacktester {
    const tickSize: real
    const horizon: real
    /** Stored but never consulted, as in the source. */
    const exitOnOpposite: bool
    const slippage: real
    var pending: seq<Position>
    var pnlTicksList: seq<real>
    var countBuy: nat
    var countSell: nat
    /** Every position opened so far, in order. */
    ghost var positions: seq<Position>
    /** Every evaluation produced so far, in order. */
    ghost var evaluations: seq<Evaluation>

    /** The pending queue is the not-yet-closed tail of the opened positions, and
        the i-th evaluation closed the i-th opened position (FIFO); the counters
        count the opened positions by kind. */
    ghost predicate Valid()
      reads this
    {
      countBuy == CountKind(positions, BuyPressure) &&
      countSell == CountKind(positions, SellPressure) &&
      |positions| == countBuy + countSell &&
      |evaluations| == |pnlTicksList| <= |positions| &&
      pending == positions[|pnlTicksList|..] &&
      (forall i :: 0 <= i < |evaluations| ==>
        evaluations[i].pnlTicks == pnlTicksList[i] &&
        Closes(evaluations[i], positions[i], tickSize, horizon))
    }

    constructor (tickSize: real := 0.1, horizonSeconds: real := 5.0, exitOnOppositeSignal: bool := false,
                 slippageTicks: real := 0.0)
      ensures Valid()
      ensures this.tickSize == tickSize && horizon == horizonSeconds
      ensures exitOnOpposite == exitOnOppositeSignal && slippage == slippageTicks
      ensures pending == [] && pnlTicksList == [] && countBuy == 0 && countSell == 0
      ensures positions == [] && evaluations == []
    {
      this.tickSize := tickSize;
      horizon := horizonSeconds;
      exitOnOpposite := exitOnOppositeSignal;
      slippage := slippageTicks;
      pending := [];
      pnlTicksList := [];
      countBuy := 0;
      countSell := 0;
      positions := [];
      evaluations := [];
    }

    /** `on_signal`: drops the signal when the mid is undefined, otherwise counts it
        and enqueues a position at the tail. */
    method OnSignal(snap: BookSnapshot, sig: Signal)
      requires Valid()
      modifies this
      ensures Valid()
      ensures snap.Mid().None? ==> unchanged(this)
      ensures snap.Mid().Some? ==>
        var pos := Position(sig, EntryPrice(sig.kind, snap.Mid().value, slippage, tickSize));
        pending == old(pending) + [pos] &&
        positions == old(positions) + [pos] &&
        countBuy == old(countBuy) + (if sig.kind == BuyPressure then 1 else 0) &&
        countSell == old(countSell) + (if sig.kind == SellPressure then 1 else 0)
      ensures pnlTicksList == old(pnlTicksList) && evaluations == old(evaluations)
      ensures |pnlTicksList| + |pending| == countBuy + countSell
    {
      var mid := snap.Mid();
      if mid.None? {
        return;
      }
      var entry := mid.value;
      if sig.kind == BuyPressure {
        entry := entry + slippage * tickSize;
        countBuy := countBuy + 1;
      } else {
        entry := entry - slippage * tickSize;
        countSell := countSell + 1;
      }
      var pos := Position(sig, entry);
      assert (positions + [pos])[..|positions|] == positions;
      assert (positions + [pos])[|pnlTicksList|..] == pending + [pos];
      pending := pending + [pos];
      positions := positions + [pos];
    }

    /** `on_snapshot`: inspects only the head; when its horizon has elapsed and the
        mid is defined, closes it, records the pnl and returns the evaluation. */
    method OnSnapshot(snap: BookSnapshot) returns (ev: Option<Evaluation>)
      requires Valid()
      requires tickSize != 0.0 || pending == [] || snap.ts - pending[0].sig.ts < horizon || snap.Mid().None?
      modifies this
      ensures Valid()
      ensures countBuy == old(countBuy) && countSell == old(countSell) && positions == old(positions)
      ensures ev.Some? <==>
        old(pending) != [] && snap.ts - old(pending)[0].sig.ts >= horizon && snap.Mid().Some?
      ensures ev.None? ==>
        pending == old(pending) && pnlTicksList == old(pnlTicksList) && evaluations == old(evaluations)
      ensures ev.Some? ==>
        var head := old(pending)[0];
        var exit := snap.Mid().value;
        ev.value == Evaluation(snap.ts, head.sig.kind, head.entry, exit,
                               PnlTicks(head.sig.kind, head.entry, exit, tickSize)) &&
        pending == old(pending)[1..] &&
        pnlTicksList == old(pnlTicksList) + [ev.value.pnlTicks] &&
        evaluations == old(evaluations) + [ev.value]
      ensures |pnlTicksList| + |pending| == countBuy + countSell
    {
      if pending == [] {
        return None;
      }
      var head := pending[0];
      if snap.ts - head.sig.ts >= horizon {
        var exitMid := snap.Mid();
        if exitMid.None? {
          return None;
        }
        assert tickSize != 0.0;
        var direction := if head.sig.kind == BuyPressure then 1.0 else -1.0;
        var pnl := (exitMid.value - head.entry) * direction / tickSize;
        var e := Evaluation(snap.ts, head.sig.kind, head.entry, exitMid.value, pnl);
        assert positions[|pnlTicksList|] == head;
        assert Closes(e, head, tickSize, horizon);
        pnlTicksList := pnlTicksList + [pnl];
        pending := pending[1..];
        evaluations := evaluations + [e];
        return Some(e);
      }
      return None;
    }

    /** `summary`: trade count, mean pnl and win rate over the closed trades, and
        the signal counters. */
    function Summary(): (r: Report)
      reads this
      ensures r.trades == |pnlTicksList|
      ensures r.buySignals == countBuy && r.sellSignals == countSell
      ensures 0.0 <= r.winRate <= 1.0
      ensures pnlTicksList == [] ==> r.avgPnlTicks == 0.0 && r.winRate == 0.0
      ensures pnlTicksList != [] ==> r.avgPnlTicks * (|pnlTicksList| as real) == Sum(pnlTicksList)
      ensures pnlTicksList != [] ==> r.winRate * (|pnlTicksList| as real) == Wins(pnlTicksList) as real
    {
      Report(|pnlTicksList|, AveragePnl(pnlTicksList), WinRate(pnlTicksList), countBuy, countSell)
    }
  }

  /** A backtester with tick size 0.1, horizon 5 s and no slippage that has opened a buy
      at t = 0 and a sell at t = 1, both at mid 100.0. */
  method OpenTwoPositions() returns (bt: RollingBacktester)
    ensures fresh(bt) && bt.Valid()
    ensures bt.tickSize == 0.1 && bt.horizon == 5.0
    ensures bt.pending == [Position(Signal(0.0, BuyPressure, 0.5), 100.0),
                           Position(Signal(1.0, SellPressure, 0.5), 100.0)]
    ensures bt.pnlTicksList == [] && bt.countBuy == 1 && bt.countSell == 1
  {
    var book := BookSnapshot(0.0, [Level(99.95, 1.0)], [Level(100.05, 1.0)]);
    assert book.Mid() == Some(100.0);
    bt := new RollingBacktester(0.1, 5.0, false, 0.0);
    bt.OnSignal(book, Signal(0.0, BuyPressure, 0.5));
    assert bt.countBuy == 1 && bt.countSell == 0;
    bt.OnSignal(book.(ts := 1.0), Signal(1.0, SellPressure, 0.5));
  }

  /** Two signals at t = 0 and t = 1, both mature at t = 10: each call closes only the
      current head, so the older position is closed first. */
  method TwoSignalsScenario() returns (first: Option<Evaluation>, second: Option<Evaluation>, report: Report)
    ensures first == Some(Evaluation(10.0, BuyPressure, 100.0, 100.5, 5.0))
    ensures second == Some(Evaluation(10.0, SellPressure, 100.0, 100.5, -5.0))
    ensures report == Report(2, 0.0, 0.5, 1, 1)
  {
    var bt := OpenTwoPositions();
    var later := BookSnapshot(10.0, [Level(100.45, 1.0)], [Level(100.55, 1.0)]);
    assert later.Mid() == Some(100.5);
    first := bt.OnSnapshot(later);
    assert bt.pending == [Position(Signal(1.0, SellPressure, 0.5), 100.0)] && bt.pnlTicksList == [5.0];
    second := bt.OnSnapshot(later);
    assert bt.pnlTicksList == [5.0, -5.0];
    ScenarioMetrics();
    report := bt.Summary();
  }

  /** The summary figures of the two-signal scenario's closed trades. */
  lemma ScenarioMetrics()
    ensures AveragePnl([5.0, -5.0]) == 0.0 && WinRate([5.0, -5.0]) == 0.5
  {
    assert [5.0, -5.0][..1] == [5.0];
    assert Sum([5.0, -5.0]) == 0.0 && Wins([5.0, -5.0]) == 1;
  }

  /** A zero tick size is harmless until a position matures: with an empty queue, an
      immature head or an undefined exit mid the snapshot returns nothing. */
  method ZeroTickSizeIdles() returns (empty: Option<Evaluation>, early: Option<Evaluation>, noMid: Option<Evaluation>)
    ensures empty == None && early == None && noMid == None
  {
    var book := BookSnapshot(0.0, [Level(99.95, 1.0)], [Level(100.05, 1.0)]);
    var bt := new RollingBacktester(0.0);
    empty := bt.OnSnapshot(book);
    bt.OnSignal(book, Signal(0.0, BuyPressure, 0.5));
    early := bt.OnSnapshot(book.(ts := 1.0));
    noMid := bt.OnSnapshot(BookSnapshot(10.0, [], [Level(100.05, 1.0)]));
  }
}
