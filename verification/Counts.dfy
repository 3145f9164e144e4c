/**
 * Finished orders never change again, and every executed trade finishes an order. In any mode, from any
 * state.
 */
module Counts {
  import opened Sums
  import opened Exchange
  import opened Matching
  import opened OrderBook
  import opened Trades
  import opened Jobs
  import opened Runs
  import opened Agreement

  // ---- Finished orders ----

  lemma JobKeepsFinished(db: Db, mode: Mode, id: nat, i: nat)
    requires i < |db.orders| && !Live(db.orders[i].status)
    ensures |MatchJob(db, mode, id).db.orders| == |db.orders| && MatchJob(db, mode, id).db.orders[i] == db.orders[i]
  {
    if Matchable(db, id) {
      OpponentsReady(db, id);
      var p := LoopStart(db, id);
      LoopFrame(p, mode, id, p.db.orders, Opponents(p.db, id));
      FetchSpec(p.db.orders, p.taker.pair, Opposite(p.taker.side));
      assert i !in Opponents(p.db, id);
    }
  }

  /** FILLED, CANCELLED and REJECTED orders are never touched again, whatever runs. */
  lemma {:induction false} FinishedStaysFinished(db: Db, mode: Mode, steps: seq<Step>, i: nat)
    requires i < |db.orders| && !Live(db.orders[i].status)
    ensures i < |Run(db, mode, steps).orders| && Run(db, mode, steps).orders[i] == db.orders[i]
    decreases |steps|
  {
    if steps != [] {
      if steps[0].RunMatchJob? {
        JobKeepsFinished(db, mode, steps[0].id, i);
      }
      FinishedStaysFinished(Apply(db, mode, steps[0]), mode, steps[1..], i);
    }
  }

  // ---- Trades against filled orders ----

  function IsFilled(): Order -> int {
    (o: Order) => if o.status == Filled then 1 else 0
  }

  ghost function FilledCount(orders: seq<Order>): int {
    Sum(orders, IsFilled())
  }

  function Unfilled(): Order -> int {
    (o: Order) => Remaining(o)
  }

  /** Every executed trade takes its quantity, which is positive, off both its orders and no other. */
  lemma TradeLowersUnfilled(db: Db, mode: Mode, takerId: nat, taker: Order, makerId: nat, maker: Order, quantity: int)
    requires Selected(db, takerId, taker, makerId, maker, quantity)
    requires ExecuteTrade(db, mode, takerId, taker, makerId, maker, quantity).ok
    ensures
      var orders := ExecuteTrade(db, mode, takerId, taker, makerId, maker, quantity).db.orders;
      && quantity > 0 && Sum(orders, Unfilled()) == Sum(db.orders, Unfilled()) - 2 * quantity
      && (quantity == Min(Remaining(taker), Remaining(maker)) ==>
            orders[takerId].status == Filled || orders[makerId].status == Filled)
  {
    var row := RecordFill(db.orders[takerId], taker, quantity);
    SumUpdate(db.orders, takerId, row, Unfilled());
    SumUpdate(db.orders[takerId := row], makerId, RecordFill(maker, maker, quantity), Unfilled());
  }

  /** Filled orders apart from the taker. */
  ghost function FilledBesides(orders: seq<Order>, takerId: nat): int
    requires takerId < |orders|
  {
    FilledCount(orders) - IsFilled()(orders[takerId])
  }

  ghost predicate MakersRest(p: Progress, takerId: nat, snapshot: seq<Order>, ids: seq<nat>) {
    && LoopReady(p, takerId, snapshot, ids) && Distinct(ids) && takerId !in ids
    && forall i :: 0 <= i < |ids| ==> p.db.orders[ids[i]] == snapshot[ids[i]] && Resting(snapshot[ids[i]].status)
  }

  lemma MatchOneCounts(p: Progress, mode: Mode, takerId: nat, snapshot: seq<Order>, ids: seq<nat>)
    requires MakersRest(p, takerId, snapshot, ids) && ids != [] && p.remaining != 0
    ensures
      var q := MatchOne(p, mode, takerId, ids[0], snapshot[ids[0]]);
      && MakersRest(q, takerId, snapshot, ids[1..])
      && q.executed - p.executed
           <= FilledBesides(q.db.orders, takerId) - FilledBesides(p.db.orders, takerId)
              + (if q.remaining == 0 then 1 else 0)
      && FilledBesides(p.db.orders, takerId) <= FilledBesides(q.db.orders, takerId)
  {
    var makerId, maker := ids[0], snapshot[ids[0]];
    var q := MatchOne(p, mode, takerId, makerId, maker);
    var quantity := Min(p.remaining, Remaining(maker));
    TradeFrame(p.db, mode, takerId, p.taker, makerId, maker, quantity);
    if CanMatch(p.taker, maker) && ExecuteTrade(p.db, mode, takerId, p.taker, makerId, maker, quantity).ok {
      var row := RecordFill(p.db.orders[takerId], p.taker, quantity);
      SumUpdate(p.db.orders, takerId, row, IsFilled());
      SumUpdate(p.db.orders[takerId := row], makerId, RecordFill(maker, maker, quantity), IsFilled());
    }
    forall i | 0 <= i < |ids[1..]|
      ensures q.db.orders[ids[1..][i]] == snapshot[ids[1..][i]] && Resting(snapshot[ids[1..][i]].status)
    {
      assert ids[1..][i] == ids[i + 1] != makerId;
    }
  }

  lemma {:induction false} LoopCounts(p: Progress, mode: Mode, takerId: nat, snapshot: seq<Order>, ids: seq<nat>)
    requires MakersRest(p, takerId, snapshot, ids)
    ensures
      var q := MatchLoop(p, mode, takerId, snapshot, ids);
      && q.executed - p.executed
           <= FilledBesides(q.db.orders, takerId) - FilledBesides(p.db.orders, takerId)
              + (if p.remaining != 0 && q.remaining == 0 then 1 else 0)
      && FilledBesides(p.db.orders, takerId) <= FilledBesides(q.db.orders, takerId)
    decreases |ids|
  {
    if ids != [] && p.remaining != 0 {
      MatchOneCounts(p, mode, takerId, snapshot, ids);
      LoopCounts(MatchOne(p, mode, takerId, ids[0], snapshot[ids[0]]), mode, takerId, snapshot, ids[1..]);
    }
  }

  lemma JobCounts(db: Db, mode: Mode, id: nat)
    ensures JobFills(db, mode, id) <= FilledCount(MatchJob(db, mode, id).db.orders) - FilledCount(db.orders)
  {
    if id < |db.orders| && Live(db.orders[id].status) {
      SumUpdate(db.orders, id, db.orders[id].(status := Cancelled), IsFilled());
      if Matchable(db, id) {
        SumUpdate(db.orders, id, db.orders[id].(status := Open), IsFilled());
        OpponentsReady(db, id);
        var p := LoopStart(db, id);
        FetchSpec(p.db.orders, p.taker.pair, Opposite(p.taker.side));
        var ids := Opponents(p.db, id);
        assert forall i :: 0 <= i < |ids| ==> ids[i] in ids;
        LoopCounts(p, mode, id, p.db.orders, ids);
        var q := LoopEnd(db, mode, id);
        FinishCounts(q.db, id, db.orders[id].quantity, q.remaining);
      }
    }
  }

  lemma FinishCounts(db: Db, id: nat, quantity: nat, remaining: int)
    requires id < |db.orders|
    ensures FilledBesides(Finish(db, id, quantity, remaining).orders, id) == FilledBesides(db.orders, id)
    ensures remaining == 0 ==> Finish(db, id, quantity, remaining).orders[id].status == Filled
  {
    SumUpdate(db.orders, id, db.orders[id].(status := Filled), IsFilled());
    SumUpdate(db.orders, id, db.orders[id].(status := Partial), IsFilled());
  }

  /** With nothing left to match and nothing matched, the loop does nothing. */
  lemma {:induction false} UntouchedOrTraded(
    p: Progress, mode: Mode, takerId: nat, snapshot: seq<Order>, ids: seq<nat>)
    requires LoopReady(p, takerId, snapshot, ids) && mode.atomicTrade
    ensures var q := MatchLoop(p, mode, takerId, snapshot, ids);
            q.executed == p.executed ==> q == p
    ensures MatchLoop(p, mode, takerId, snapshot, ids).executed >= p.executed
    decreases |ids|
  {
    if ids != [] && p.remaining != 0 {
      UntouchedOrTraded(MatchOne(p, mode, takerId, ids[0], snapshot[ids[0]]), mode, takerId, snapshot, ids[1..]);
    }
  }

  /** The trades that a run executes. Refused ones that are not undone leave a row too, but execute nothing. */
  function RunFills(db: Db, mode: Mode, steps: seq<Step>): nat
    decreases |steps|
  {
    if steps == [] then 0
    else
      (if steps[0].RunMatchJob? then JobFills(db, mode, steps[0].id) else 0)
      + RunFills(Apply(db, mode, steps[0]), mode, steps[1..])
  }

  lemma StepCounts(db: Db, mode: Mode, step: Step)
    ensures (if step.RunMatchJob? then JobFills(db, mode, step.id) else 0)
         <= FilledCount(Apply(db, mode, step).orders) - FilledCount(db.orders)
  {
    match step {
      case SubmitOrder(o, admitted) =>
        SumAppend(db.orders, NewOrder(o), IsFilled());
      case RunMatchJob(id) =>
        JobCounts(db, mode, id);
      case CancelOrder(id, user) =>
        if id < |db.orders| {
          SumUpdate(db.orders, id, db.orders[id].(status := Cancelled), IsFilled());
        }
      case AskSwap(_, _) =>
      case RunSwapAttempt(_, _, _, _) =>
      case SwitchPair(_, _) =>
    }
  }

  /** In any run and any mode, at most as many trades are executed as orders are newly FILLED. */
  lemma {:induction false} TradesAtMostFilled(db: Db, mode: Mode, steps: seq<Step>)
    ensures RunFills(db, mode, steps) <= FilledCount(Run(db, mode, steps).orders) - FilledCount(db.orders)
    decreases |steps|
  {
    if steps != [] {
      StepCounts(db, mode, steps[0]);
      TradesAtMostFilled(Apply(db, mode, steps[0]), mode, steps[1..]);
    }
  }

  lemma {:induction false} LoopRowsCounted(p: Progress, mode: Mode, takerId: nat, snapshot: seq<Order>, ids: seq<nat>)
    requires LoopReady(p, takerId, snapshot, ids) && mode.atomicTrade
    ensures
      var q := MatchLoop(p, mode, takerId, snapshot, ids);
      |q.db.trades| - |p.db.trades| == q.executed - p.executed
    decreases |ids|
  {
    if ids != [] && p.remaining != 0 {
      LoopRowsCounted(MatchOne(p, mode, takerId, ids[0], snapshot[ids[0]]), mode, takerId, snapshot, ids[1..]);
    }
  }

  /** With rollback, the trades executed are the rows inserted. */
  lemma {:induction false} RowsAreFills(db: Db, mode: Mode, steps: seq<Step>)
    requires mode.atomicTrade
    ensures |Run(db, mode, steps).trades| - |db.trades| == RunFills(db, mode, steps)
    decreases |steps|
  {
    if steps != [] {
      if steps[0].RunMatchJob? && Matchable(db, steps[0].id) {
        OpponentsReady(db, steps[0].id);
        var p := LoopStart(db, steps[0].id);
        LoopRowsCounted(p, mode, steps[0].id, p.db.orders, Opponents(p.db, steps[0].id));
      }
      RowsAreFills(Apply(db, mode, steps[0]), mode, steps[1..]);
    }
  }
}
