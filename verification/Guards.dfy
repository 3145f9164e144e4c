/**
 * Every run, in every mode: the exchange stays sound exactly as long as each step finds what it needs,
 * which can be read off the state before the step.
 */
module Guards {
  import opened Sums
  import opened Exchange
  import opened Matching
  import opened Solvency
  import opened Jobs
  import opened Overdraft
  import opened Runs
  import opened Agreement
  import opened Allocation
  import opened Fills
  import opened StaleFills

  // ---- Refused trades that are not undone ----

  /** A maker whose trades are more than its fills. */
  ghost predicate Orphaned(db: Db, id: nat) {
    id < |db.orders| && Traded(db.trades, id) > db.orders[id].filled
  }

  lemma TradedGrows(trades: seq<Trade>, more: seq<Trade>, id: nat)
    ensures Traded(trades, id) <= Traded(trades + more, id)
  {
    SumConcat(trades, more, FillOf(id));
    SumNonNegative(more, FillOf(id));
  }

  lemma {:induction false} LoopTradesGrow(p: Progress, mode: Mode, takerId: nat, snapshot: seq<Order>, ids: seq<nat>)
    requires LoopReady(p, takerId, snapshot, ids)
    ensures p.db.trades <= MatchLoop(p, mode, takerId, snapshot, ids).db.trades
    decreases |ids|
  {
    if ids != [] && p.remaining != 0 {
      LoopTradesGrow(MatchOne(p, mode, takerId, ids[0], snapshot[ids[0]]), mode, takerId, snapshot, ids[1..]);
    }
  }

  lemma OrphanStays(p: Progress, mode: Mode, takerId: nat, snapshot: seq<Order>, ids: seq<nat>, orphan: nat)
    requires LoopReady(p, takerId, snapshot, ids) && Orphaned(p.db, orphan) && orphan !in ids && orphan != takerId
    ensures Orphaned(MatchLoop(p, mode, takerId, snapshot, ids).db, orphan)
  {
    var p' := MatchLoop(p, mode, takerId, snapshot, ids);
    LoopFrame(p, mode, takerId, snapshot, ids);
    LoopTradesGrow(p, mode, takerId, snapshot, ids);
    assert p'.db.trades == p.db.trades + p'.db.trades[|p.db.trades|..];
    TradedGrows(p.db.trades, p'.db.trades[|p.db.trades|..], orphan);
  }

  /** A trade refused for want of the taker's funds leaves its row behind. */
  lemma TurnOrphans(p: Progress, takerId: nat, snapshot: seq<Order>, ids: seq<nat>)
    requires LoopInv(p, takerId, snapshot, ids) && Capped(p.db) && ids != [] && p.remaining != 0
    requires !Unhindered(p, Mode(true, false), snapshot[ids[0]])
    ensures Orphaned(MatchOne(p, Mode(true, false), takerId, ids[0], snapshot[ids[0]]).db, ids[0])
  {
    var maker := snapshot[ids[0]];
    var quantity := Min(p.remaining, Remaining(maker));
    SelectedInLoop(p, takerId, snapshot, ids);
    TurnTradesIff(p, Mode(true, false), takerId, snapshot, ids);
    var trade := TradeRow(takerId, p.taker, ids[0], maker, maker.price.value, quantity);
    SumAppend(p.db.trades, trade, FillOf(ids[0]));
    assert Traded(p.db.trades, ids[0]) == p.db.orders[ids[0]].filled;
  }

  lemma {:induction false} LoopOrphans(p: Progress, takerId: nat, taker: Order, snapshot: seq<Order>, ids: seq<nat>)
    returns (orphan: nat)
    requires LoopInv(p, takerId, snapshot, ids) && Capped(p.db) && p.taker == taker.(filled := p.taker.filled)
    requires !LoopUnhindered(p, Mode(true, false), taker, Rows(snapshot, ids))
    ensures orphan in ids && Orphaned(MatchLoop(p, Mode(true, false), takerId, snapshot, ids).db, orphan)
    decreases |ids|
  {
    var mode, makers := Mode(true, false), Rows(snapshot, ids);
    LoopHasRemaining(p, takerId, snapshot, ids);
    if p.remaining == 0 {
      NoneTradable(taker, makers, 0);
    }
    assert p.remaining != 0 && ids != [];
    var maker := snapshot[ids[0]];
    var q := MatchOne(p, mode, takerId, ids[0], maker);
    if Unhindered(p, mode, maker) {
      HinderedRest(p, takerId, taker, snapshot, ids);
      orphan := LoopOrphans(q, takerId, taker, snapshot, ids[1..]);
    } else {
      TurnOrphans(p, takerId, snapshot, ids);
      orphan := ids[0];
      OrphanStays(q, mode, takerId, snapshot, ids[1..], orphan);
    }
  }

  /** A first turn that is paid leaves the rest short. */
  lemma HinderedRest(p: Progress, takerId: nat, taker: Order, snapshot: seq<Order>, ids: seq<nat>)
    requires LoopInv(p, takerId, snapshot, ids) && Capped(p.db) && p.taker == taker.(filled := p.taker.filled)
    requires ids != [] && p.remaining != 0 && Unhindered(p, Mode(true, false), snapshot[ids[0]])
    requires !LoopUnhindered(p, Mode(true, false), taker, Rows(snapshot, ids))
    ensures
      var q := MatchOne(p, Mode(true, false), takerId, ids[0], snapshot[ids[0]]);
      && LoopInv(q, takerId, snapshot, ids[1..]) && Capped(q.db) && q.taker == taker.(filled := q.taker.filled)
      && !LoopUnhindered(q, Mode(true, false), taker, Rows(snapshot, ids[1..]))
  {
    var mode, makers := Mode(true, false), Rows(snapshot, ids);
    MatchOneServes(p, mode, takerId, taker, snapshot, ids);
    MatchOneSpends(p, mode, takerId, taker, snapshot, ids);
    MatchOneKeeps(p, mode, takerId, snapshot, ids);
    StillHindered(p, MatchOne(p, mode, takerId, ids[0], snapshot[ids[0]]), taker, makers);
    assert Rows(snapshot, ids[1..]) == makers[1..];
  }

  lemma StillHindered(p: Progress, q: Progress, taker: Order, makers: seq<Order>)
    requires makers != [] && p.taker.pair < |p.db.pairs| && q.taker.pair < |q.db.pairs|
    requires p.taker == taker.(filled := p.taker.filled) && Unhindered(p, Mode(true, false), makers[0])
    requires
      var share := Share(taker, makers[0], p.remaining, Budget(p.db, p.taker));
      && q.remaining == p.remaining - share
      && Budget(q.db, q.taker) == Budget(p.db, p.taker) - Cost(taker, makers[0], share)
    requires !LoopUnhindered(p, Mode(true, false), taker, makers)
    ensures !LoopUnhindered(q, Mode(true, false), taker, makers[1..])
  {
    AllocateFirst(taker, makers, p.remaining);
    assert Share(taker, makers[0], p.remaining, Budget(p.db, p.taker)) == Fill(taker, makers[0], p.remaining);
  }

  /** Without the funds for what it wants, and without rollback, a job leaves a trade that was never filled. */
  lemma JobOrphans(db: Db, carry: bool, id: nat)
    requires Sound(db) && Capped(db) && Matchable(db, id) && !LockCovers(db, id)
    ensures !Books(MatchJob(db, Mode(carry, false), id).db)
  {
    LoopStartInv(db, id);
    var p := LoopStart(db, id);
    var orphan := LoopOrphans(p, id, p.taker, p.db.orders, Opponents(p.db, id));
    JobIsLoop(db, Mode(true, false), id);
    StaleFillDiffers(db, false, id);
    OpponentsReady(db, id);
    assert Orphaned(MatchJob(db, Mode(true, false), id).db, orphan);
    assert Orphaned(MatchJob(db, Mode(carry, false), id).db, orphan) by {
      assert Mode(carry, false) == Mode(true, false) || Mode(carry, false) == Mode(false, false);
    }
  }

  // ---- Jobs ----

  /**
   * What a job must find: funds for what it wants where a refused trade is not undone, slack for what
   * it overpays, and a single fill where fill counts go stale. Only a MARKET BUY can fail the first two.
   */
  ghost predicate JobGuard(db: Db, mode: Mode, id: nat)
    requires Matchable(db, id)
  {
    && (mode.atomicTrade || LockCovers(db, id))
    && SlackLeft(db, mode.atomicTrade, id) >= 0
    && (mode.carryFill || Positives(Shares(db, mode.atomicTrade, id)) <= 1)
  }

  /** A job leaves a sound exchange sound exactly when its guard holds before it. In any mode. */
  lemma JobSoundIff(db: Db, mode: Mode, id: nat)
    requires Sound(db) && Capped(db)
    ensures Sound(MatchJob(db, mode, id).db) <==> (Matchable(db, id) ==> JobGuard(db, mode, id))
  {
    if !Matchable(db, id) {
      IdleJobKeepsSound(db, mode, id);
    } else if !mode.atomicTrade && !LockCovers(db, id) {
      JobOrphans(db, mode.carryFill, id);
    } else {
      CarriedJobSoundIff(db, mode.atomicTrade, id);
      if mode.carryFill {
        assert mode == Mode(true, mode.atomicTrade);
      } else {
        assert mode == Mode(false, mode.atomicTrade);
        StaleJobSoundIff(db, mode.atomicTrade, id);
      }
    }
  }

  lemma StaleJobSoundIff(db: Db, atomic: bool, id: nat)
    requires Sound(db) && Capped(db) && Matchable(db, id) && (atomic || LockCovers(db, id))
    ensures Sound(MatchJob(db, Mode(false, atomic), id).db)
       <==> Sound(MatchJob(db, Mode(true, atomic), id).db) && Positives(Shares(db, atomic, id)) <= 1
  {
    JobFillsAreShares(db, Mode(true, atomic), id);
    StaleFillDiffers(db, atomic, id);
    if Positives(Shares(db, atomic, id)) > 1 {
      JobLeaves(db, atomic, id);
      var stale, carried := MatchJob(db, Mode(false, atomic), id).db, MatchJob(db, Mode(true, atomic), id).db;
      assert Traded(carried.trades, id) == carried.orders[id].filled != stale.orders[id].filled;
    }
  }

  /** For anything but a MARKET BUY only the stale count can hurt, and it hurts on two fills. */
  lemma LimitJobSoundIff(db: Db, mode: Mode, id: nat)
    requires Sound(db) && Capped(db) && Matchable(db, id) && !MarketBuy(db.orders[id])
    ensures Sound(MatchJob(db, mode, id).db) <==> mode.carryFill || !TakesTwo(Taker(db, id), Fetched(db, id))
  {
    LimitFillsIff(db, mode.atomicTrade, id);
    JobKeepsSound(db, Mode(true, mode.atomicTrade), id);
    if mode != Mode(true, mode.atomicTrade) {
      assert mode == Mode(false, mode.atomicTrade);
      StaleJobSoundIff(db, mode.atomicTrade, id);
    }
  }

  /** Written and documented job agree exactly when the taker can pay for all it wants and takes one fill at most. */
  lemma JobAgreesIff(db: Db, id: nat)
    requires Sound(db) && Capped(db) && Matchable(db, id)
    ensures MatchJob(db, AS_WRITTEN, id) == MatchJob(db, AS_DOCUMENTED, id)
       <==> LockCovers(db, id) && !TakesTwo(Taker(db, id), Fetched(db, id))
  {
    if LockCovers(db, id) {
      StaleFillShowsIff(db, false, id);
      RollbackIsIdle(db, id);
    } else {
      JobOrphans(db, false, id);
      JobLeaves(db, true, id);
    }
  }

  /** With the funds for what it wants, a job meets no refusal, so nothing is there to undo. */
  lemma RollbackIsIdle(db: Db, id: nat)
    requires Sound(db) && Capped(db) && Matchable(db, id) && LockCovers(db, id)
    ensures MatchJob(db, Mode(true, false), id) == MatchJob(db, AS_DOCUMENTED, id)
  {
    var p := LoopStart(db, id);
    LoopStartInv(db, id);
    LoopIgnoresRollback(p, id, p.taker, p.db.orders, Opponents(p.db, id));
  }

  lemma {:induction false} LoopIgnoresRollback(
    p: Progress, takerId: nat, taker: Order, snapshot: seq<Order>, ids: seq<nat>)
    requires LoopInv(p, takerId, snapshot, ids) && Capped(p.db) && p.taker == taker.(filled := p.taker.filled)
    requires LoopUnhindered(p, Mode(true, false), taker, Rows(snapshot, ids))
    ensures MatchLoop(p, Mode(true, false), takerId, snapshot, ids)
         == MatchLoop(p, AS_DOCUMENTED, takerId, snapshot, ids)
    decreases |ids|
  {
    if ids != [] && p.remaining != 0 {
      TurnAndRest(p, Mode(true, false), takerId, taker, snapshot, ids);
      CleanIgnoresRollback(p, takerId, ids[0], snapshot[ids[0]]);
      LoopIgnoresRollback(MatchOne(p, Mode(true, false), takerId, ids[0], snapshot[ids[0]]),
                          takerId, taker, snapshot, ids[1..]);
    }
  }

  lemma CleanIgnoresRollback(p: Progress, takerId: nat, makerId: nat, maker: Order)
    requires takerId < |p.db.orders| && makerId < |p.db.orders| && p.taker.pair < |p.db.pairs|
    requires Clean(p, Mode(true, false), takerId, makerId, maker)
    ensures MatchOne(p, Mode(true, false), takerId, makerId, maker)
         == MatchOne(p, AS_DOCUMENTED, takerId, makerId, maker)
  {
  }

  // ---- Steps and runs ----

  /** What a step must find in the state before it. */
  ghost predicate Guard(db: Db, mode: Mode, step: Step) {
    match step
    case RunMatchJob(id) => Matchable(db, id) ==> JobGuard(db, mode, id)
    case RunSwapAttempt(id, made, most, event) => LateFault(db, id, event) ==> LateFaultAbsorbed(db, id, made, most)
    case _ => true
  }

  lemma StepSoundIff(db: Db, mode: Mode, step: Step)
    requires Sound(db) && Capped(db)
    ensures Sound(Apply(db, mode, step)) <==> Guard(db, mode, step)
  {
    match step {
      case SubmitOrder(order, admitted) => SubmitKeepsSound(db, order, admitted);
      case RunMatchJob(id) => JobSoundIff(db, mode, id);
      case CancelOrder(id, user) => CancelKeepsSound(db, id, user);
      case AskSwap(swap, usable) => RequestSwapKeepsSound(db, swap, usable);
      case RunSwapAttempt(id, made, most, event) => SwapAttemptSoundIff(db, id, made, most, event);
      case SwitchPair(pair, active) => SwitchKeepsSound(db, pair, active);
    }
  }

  ghost predicate AlwaysSound(db: Db, mode: Mode, steps: seq<Step>)
    decreases |steps|
  {
    Sound(db) && (steps != [] ==> AlwaysSound(Apply(db, mode, steps[0]), mode, steps[1..]))
  }

  ghost predicate AlwaysGuarded(db: Db, mode: Mode, steps: seq<Step>)
    decreases |steps|
  {
    steps != [] ==> Guard(db, mode, steps[0]) && AlwaysGuarded(Apply(db, mode, steps[0]), mode, steps[1..])
  }

  /**
   * Within the price cap, a run of any steps in any mode, as written or as documented, keeps the
   * exchange sound all along exactly when every step meets its guard.
   */
  lemma {:induction false} RunStaysSoundIff(db: Db, mode: Mode, steps: seq<Step>)
    requires Sound(db) && Capped(db) && forall i :: 0 <= i < |steps| ==> WithinCap(steps[i])
    ensures AlwaysSound(db, mode, steps) <==> AlwaysGuarded(db, mode, steps)
    decreases |steps|
  {
    if steps != [] {
      StepSoundIff(db, mode, steps[0]);
      StepKeepsCapped(db, mode, steps[0]);
      if Guard(db, mode, steps[0]) {
        RunStaysSoundIff(Apply(db, mode, steps[0]), mode, steps[1..]);
      } else {
        assert !Sound(Apply(db, mode, steps[0]));
      }
    }
  }

  /**
   * A run that meets the guards of the code as written is the run as documented: the same rows at
   * every step, and all of them sound.
   */
  lemma {:induction false} AsWrittenIsAsDocumented(db: Db, steps: seq<Step>)
    requires Sound(db) && Capped(db) && forall i :: 0 <= i < |steps| ==> WithinCap(steps[i])
    requires AlwaysGuarded(db, AS_WRITTEN, steps)
    ensures Run(db, AS_WRITTEN, steps) == Run(db, AS_DOCUMENTED, steps) && Sound(Run(db, AS_WRITTEN, steps))
    decreases |steps|
  {
    if steps != [] {
      StepSoundIff(db, AS_WRITTEN, steps[0]);
      StepKeepsCapped(db, AS_WRITTEN, steps[0]);
      if steps[0].RunMatchJob? && Matchable(db, steps[0].id) {
        GuardedJobAgrees(db, steps[0].id);
      }
      AsWrittenIsAsDocumented(Apply(db, AS_WRITTEN, steps[0]), steps[1..]);
    }
  }

  lemma GuardedJobAgrees(db: Db, id: nat)
    requires Sound(db) && Capped(db) && Matchable(db, id) && JobGuard(db, AS_WRITTEN, id)
    ensures MatchJob(db, AS_WRITTEN, id) == MatchJob(db, AS_DOCUMENTED, id)
  {
    JobFillsAreShares(db, Mode(true, false), id);
    StaleFillDiffers(db, false, id);
    RollbackIsIdle(db, id);
  }

  /** The job takes one fill at most and can pay for all it wants. */
  predicate AgreesOn(db: Db, step: Step) {
    step.RunMatchJob? && Matchable(db, step.id) ==>
      LockCovers(db, step.id) && !TakesTwo(Taker(db, step.id), Fetched(db, step.id))
  }

  predicate AlwaysAgreesOn(db: Db, steps: seq<Step>)
    decreases |steps|
  {
    steps != [] ==> AgreesOn(db, steps[0]) && AlwaysAgreesOn(Apply(db, AS_DOCUMENTED, steps[0]), steps[1..])
  }

  /** Both readings pass through the same states. */
  predicate SameAllAlong(db: Db, steps: seq<Step>)
    decreases |steps|
  {
    steps != [] ==>
      && Apply(db, AS_WRITTEN, steps[0]) == Apply(db, AS_DOCUMENTED, steps[0])
      && SameAllAlong(Apply(db, AS_DOCUMENTED, steps[0]), steps[1..])
  }

  /** A run that is sound as documented is the same as written exactly when every job agrees. */
  lemma {:induction false} RunAgreesIff(db: Db, steps: seq<Step>)
    requires Capped(db) && AlwaysSound(db, AS_DOCUMENTED, steps)
    requires forall i :: 0 <= i < |steps| ==> WithinCap(steps[i])
    ensures SameAllAlong(db, steps) <==> AlwaysAgreesOn(db, steps)
    decreases |steps|
  {
    if steps != [] {
      StepKeepsCapped(db, AS_DOCUMENTED, steps[0]);
      if steps[0].RunMatchJob? && Matchable(db, steps[0].id) {
        JobAgreesIff(db, steps[0].id);
      }
      RunAgreesIff(Apply(db, AS_DOCUMENTED, steps[0]), steps[1..]);
    }
  }
}
