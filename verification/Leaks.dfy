/** Exactly when jobs and runs conserve every token, with trades undone or not. */
module Leaks {
  import opened Ledger
  import opened Exchange
  import opened Matching
  import opened Solvency
  import opened Jobs
  import opened Overdraft
  import opened Runs
  import opened Agreement
  import opened Allocation
  import opened Fills
  import opened StaleFills
  import opened Guards
  import opened Conservation

  /** The quote token that a job trades against. */
  function QuoteOf(p: Progress): TokenId
    requires p.taker.pair < |p.db.pairs|
  {
    p.db.pairs[p.taker.pair].quote
  }

  // ---- Jobs ----

  /** No refusal ever takes quote away. */
  lemma TurnAddsQuote(p: Progress, mode: Mode, takerId: nat, makerId: nat, maker: Order)
    requires p.taker.pair < |p.db.pairs| && TwoTokens(p.db)
    ensures TurnLeak(p, mode, takerId, makerId, maker, QuoteOf(p)) >= 0
  {
  }

  lemma {:induction false} LoopAddsQuote(p: Progress, mode: Mode, takerId: nat, snapshot: seq<Order>, ids: seq<nat>)
    requires LoopReady(p, takerId, snapshot, ids) && TwoTokens(p.db)
    ensures LoopLeak(p, mode, takerId, snapshot, ids, QuoteOf(p)) >= 0
    decreases |ids|
  {
    if ids != [] && p.remaining != 0 {
      TurnAddsQuote(p, mode, takerId, ids[0], snapshot[ids[0]]);
      LoopAddsQuote(MatchOne(p, mode, takerId, ids[0], snapshot[ids[0]]), mode, takerId, snapshot, ids[1..]);
    }
  }

  /** A trade refused for want of the taker's funds has already credited the seller with quote. */
  lemma HinderedTurnLeaks(p: Progress, takerId: nat, snapshot: seq<Order>, ids: seq<nat>)
    requires LoopInv(p, takerId, snapshot, ids) && Capped(p.db) && ids != [] && p.remaining != 0
    requires !Unhindered(p, Mode(true, false), snapshot[ids[0]])
    ensures TurnLeak(p, Mode(true, false), takerId, ids[0], snapshot[ids[0]], QuoteOf(p)) > 0
  {
    var maker := snapshot[ids[0]];
    SelectedInLoop(p, takerId, snapshot, ids);
    assert OrderOk(p.db.pairs, p.db.orders[ids[0]]);
    var inBase := Account(maker.user, p.db.pairs[p.taker.pair].base);
    assert Slack(p.db, inBase) >= 0;
    OwesAtMostOwed(p.db, inBase, ids[0]);
  }

  lemma {:induction false} HinderedLoopLeaks(
    p: Progress, takerId: nat, taker: Order, snapshot: seq<Order>, ids: seq<nat>)
    requires LoopInv(p, takerId, snapshot, ids) && Capped(p.db) && p.taker == taker.(filled := p.taker.filled)
    requires !LoopUnhindered(p, Mode(true, false), taker, Rows(snapshot, ids))
    ensures LoopLeak(p, Mode(true, false), takerId, snapshot, ids, QuoteOf(p)) > 0
    decreases |ids|
  {
    var mode, makers := Mode(true, false), Rows(snapshot, ids);
    LoopHasRemaining(p, takerId, snapshot, ids);
    if p.remaining == 0 {
      NoneTradable(taker, makers, 0);
    }
    assert p.remaining != 0 && ids != [];
    var maker := snapshot[ids[0]];
    var q := MatchOne(p, mode, takerId, ids[0], maker);
    if Unhindered(p, mode, maker) {
      HinderedRest(p, takerId, taker, snapshot, ids);
      TurnAddsQuote(p, mode, takerId, ids[0], maker);
      HinderedLoopLeaks(q, takerId, taker, snapshot, ids[1..]);
    } else {
      HinderedTurnLeaks(p, takerId, snapshot, ids);
      LoopAddsQuote(q, mode, takerId, snapshot, ids[1..]);
    }
  }

  /** A job conserves every token exactly when refusals are undone or the taker's lock covers what it wants. */
  lemma JobConservesIff(db: Db, mode: Mode, id: nat)
    requires Sound(db) && Capped(db) && Matchable(db, id)
    ensures (forall t :: Wealth(MatchJob(db, mode, id).db, t) == Wealth(db, t))
       <==> mode.atomicTrade || LockCovers(db, id)
  {
    var carried := Mode(true, mode.atomicTrade);
    if mode.atomicTrade || LockCovers(db, id) {
      forall t ensures Wealth(MatchJob(db, carried, id).db, t) == Wealth(db, t) {
        CoveredJobConserves(db, mode.atomicTrade, id, t);
      }
    } else {
      UncoveredJobLeaks(db, id);
    }
    forall t ensures Wealth(MatchJob(db, mode, id).db, t) == Wealth(MatchJob(db, carried, id).db, t) {
      StaleWealth(db, mode, id, t);
    }
  }

  lemma StaleWealth(db: Db, mode: Mode, id: nat, t: TokenId)
    ensures Wealth(MatchJob(db, mode, id).db, t) == Wealth(MatchJob(db, Mode(true, mode.atomicTrade), id).db, t)
  {
    StaleFillDiffers(db, mode.atomicTrade, id);
    assert mode == Mode(true, mode.atomicTrade) || mode == Mode(false, mode.atomicTrade);
  }

  lemma CoveredJobConserves(db: Db, atomic: bool, id: nat, t: TokenId)
    requires Sound(db) && Capped(db) && Matchable(db, id) && (atomic || LockCovers(db, id))
    ensures Wealth(MatchJob(db, Mode(true, atomic), id).db, t) == Wealth(db, t)
  {
    if !atomic {
      RollbackIsIdle(db, id);
    }
    var p := LoopStart(db, id);
    OpponentsReady(db, id);
    AtomicLoopLeaksNothing(p, AS_DOCUMENTED, id, p.db.orders, Opponents(p.db, id), t);
    JobWealth(db, AS_DOCUMENTED, id, t);
  }

  lemma UncoveredJobLeaks(db: Db, id: nat)
    requires Sound(db) && Capped(db) && Matchable(db, id) && !LockCovers(db, id)
    ensures Wealth(MatchJob(db, Mode(true, false), id).db, db.pairs[db.orders[id].pair].quote)
          > Wealth(db, db.pairs[db.orders[id].pair].quote)
  {
    var p := LoopStart(db, id);
    LoopStartInv(db, id);
    HinderedLoopLeaks(p, id, p.taker, p.db.orders, Opponents(p.db, id));
    JobWealth(db, Mode(true, false), id, QuoteOf(p));
  }

  // ---- Runs ----

  /**
   * What a step must find so that every token is conserved: funds for the job where refusals are not
   * undone, no late fault of a swap that moves anything.
   */
  predicate ConservingGuard(db: Db, mode: Mode, step: Step) {
    match step
    case RunMatchJob(id) => Matchable(db, id) ==> mode.atomicTrade || LockCovers(db, id)
    case RunSwapAttempt(id, _, _, event) =>
      LateFault(db, id, event) ==> db.swaps[id].sourceAmount == 0 && db.swaps[id].targetAmount == 0
    case _ => true
  }

  /** The source row of a swap that moves something is there in a solvent exchange: it holds the lock. */
  lemma AttemptConservesIff(db: Db, id: nat, attemptsMade: nat, maxAttempts: nat, event: AttemptEvent)
    requires Sound(db)
    ensures (forall t :: Wealth(SwapAttempt(db, id, attemptsMade, maxAttempts, event).db, t) == Wealth(db, t))
       <==> (LateFault(db, id, event) ==> db.swaps[id].sourceAmount == 0 && db.swaps[id].targetAmount == 0)
  {
    if id < |db.swaps| && Unfinished(db.swaps[id].status) {
      SwapHasLocked(db, id);
      if event == FailsAfterwards {
        LateFaultConservesIff(db, id, attemptsMade, maxAttempts);
      }
    }
    forall t ensures Wealth(SwapAttempt(db, id, attemptsMade, maxAttempts, event).db, t)
                  == Wealth(db, t) + AttemptLeak(db, id, event, t)
    {
      SwapAttemptWealth(db, id, attemptsMade, maxAttempts, event, t);
    }
  }

  lemma StepConservesIff(db: Db, mode: Mode, step: Step)
    requires Sound(db) && Capped(db)
    ensures (forall t :: Wealth(Apply(db, mode, step), t) == Wealth(db, t)) <==> ConservingGuard(db, mode, step)
  {
    match step {
      case RunMatchJob(id) =>
        if Matchable(db, id) {
          JobConservesIff(db, mode, id);
        } else {
          forall t { JobWealth(db, mode, id, t); }
        }
      case RunSwapAttempt(id, made, most, event) => AttemptConservesIff(db, id, made, most, event);
      case _ =>
        forall t { StepWealth(db, mode, step, t); }
    }
  }

  /** The exchange is sound before every step. */
  ghost predicate SoundBefore(db: Db, mode: Mode, steps: seq<Step>)
    decreases |steps|
  {
    steps != [] ==> Sound(db) && SoundBefore(Apply(db, mode, steps[0]), mode, steps[1..])
  }

  ghost predicate AlwaysConserves(db: Db, mode: Mode, steps: seq<Step>)
    decreases |steps|
  {
    steps != [] ==>
      && (forall t :: Wealth(Apply(db, mode, steps[0]), t) == Wealth(db, t))
      && AlwaysConserves(Apply(db, mode, steps[0]), mode, steps[1..])
  }

  predicate AlwaysConservingGuard(db: Db, mode: Mode, steps: seq<Step>)
    decreases |steps|
  {
    steps != [] ==>
      ConservingGuard(db, mode, steps[0]) && AlwaysConservingGuard(Apply(db, mode, steps[0]), mode, steps[1..])
  }

  /**
   * A run in any mode that is sound before every step conserves every token all along exactly when
   * every step meets its guard.
   */
  lemma {:induction false} RunConservesIff(db: Db, mode: Mode, steps: seq<Step>)
    requires Capped(db) && SoundBefore(db, mode, steps)
    requires forall i :: 0 <= i < |steps| ==> WithinCap(steps[i])
    ensures AlwaysConserves(db, mode, steps) <==> AlwaysConservingGuard(db, mode, steps)
    decreases |steps|
  {
    if steps != [] {
      StepConservesIff(db, mode, steps[0]);
      StepKeepsCapped(db, mode, steps[0]);
      RunConservesIff(Apply(db, mode, steps[0]), mode, steps[1..]);
    }
  }
}
