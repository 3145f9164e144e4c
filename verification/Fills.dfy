/**
 * What a whole job does, as a function of the rows it fetches and the lock it can pay from: its trades,
 * its fills, the slack it leaves, and exactly when it leaves the exchange sound.
 */
module Fills {
  import opened Amounts
  import opened Ledger
  import opened Exchange
  import opened Matching
  import opened Trades
  import opened Solvency
  import opened Jobs
  import opened Agreement
  import opened Allocation

  /** The order as its job begins: opened. */
  function Taker(db: Db, id: nat): Order
    requires Matchable(db, id)
  {
    LoopStart(db, id).taker
  }

  /** The rows fetched by a job, best first. */
  function Fetched(db: Db, id: nat): seq<Order>
    requires Matchable(db, id)
  {
    var p := LoopStart(db, id);
    Rows(p.db.orders, Opponents(p.db, id))
  }

  /** What the fetched orders would give if any price were paid. */
  function Wanted(db: Db, id: nat): seq<int>
    requires Matchable(db, id)
  {
    Allocate(Taker(db, id), Fetched(db, id), Remaining(db.orders[id]))
  }

  /** What they give: a refused trade is passed over where trades are undone. */
  function Shares(db: Db, atomic: bool, id: nat): (shares: seq<int>)
    requires Matchable(db, id)
    ensures |shares| == |Fetched(db, id)|
  {
    if atomic then Afford(Taker(db, id), Fetched(db, id), Remaining(db.orders[id]), Budget(db, Taker(db, id)))
    else Wanted(db, id)
  }

  /** The account has locked what the job wants to pay. */
  predicate LockCovers(db: Db, id: nat)
    requires Matchable(db, id)
  {
    Paid(Taker(db, id), Fetched(db, id), Wanted(db, id)) <= Budget(db, Taker(db, id))
  }

  // ---- Orders that trade within their price ----

  /** A limit BUY sheds at least as much debt as it pays. */
  lemma {:induction false} PaidWithinDebt(taker: Order, makers: seq<Order>, remaining: nat)
    requires HaveRemaining(makers) && taker.side == Buy && taker.kind != Market && taker.price.Some?
    ensures
      var shares := Allocate(taker, makers, remaining);
      && 0 <= Total(shares) <= remaining
      && Paid(taker, makers, shares) + Quote(remaining - Total(shares), taker.price.value)
         <= Quote(remaining, taker.price.value)
    decreases |makers|
  {
    if makers != [] {
      var share := Fill(taker, makers[0], remaining);
      var rest := Allocate(taker, makers[1..], remaining - share);
      AllocateFirst(taker, makers, remaining);
      PaidWithinDebt(taker, makers[1..], remaining - share);
      assert Allocate(taker, makers, remaining)[1..] == rest;
      if share > 0 {
        QuoteSplit(remaining - share, share, taker.price.value);
        QuoteMonotone(share, makers[0].price.value, taker.price.value);
      }
    }
  }

  lemma StartSlack(db: Db, id: nat)
    requires Matchable(db, id)
    ensures forall a: Account :: Slack(LoopStart(db, id).db, a) == Slack(db, a)
    ensures LoopStart(db, id).db.pairs == db.pairs && LoopStart(db, id).db.balances == db.balances
  {
    if db.orders[id].status == PendingMatch {
      forall a: Account { OwedAfterStatus(db, id, Open, a); }
    }
  }

  lemma JobHasRemaining(db: Db, id: nat)
    requires Sound(db) && Matchable(db, id)
    ensures HaveRemaining(Fetched(db, id)) && Remaining(db.orders[id]) > 0
  {
    LoopStartInv(db, id);
    var p := LoopStart(db, id);
    LoopHasRemaining(p, id, p.db.orders, Opponents(p.db, id));
  }

  /** What is locked covers the claim of the order itself. */
  lemma LockCoversClaim(db: Db, id: nat)
    requires Sound(db) && Matchable(db, id) && db.orders[id].side == Buy
    ensures
      var o := db.orders[id];
      && o.price.Some? && Remaining(o) >= 0
      && Slack(db, FundedBy(db.pairs, o)) + Quote(Remaining(o), o.price.value) <= Budget(db, o)
  {
    var o := db.orders[id];
    assert OrderOk(db.pairs, o);
    OwesAtMostOwed(db, FundedBy(db.pairs, o), id);
  }

  /** So the lock of anything but a MARKET BUY covers its job. */
  lemma LimitLockCovers(db: Db, id: nat)
    requires Sound(db) && Matchable(db, id) && !MarketBuy(db.orders[id])
    ensures LockCovers(db, id)
  {
    JobHasRemaining(db, id);
    if db.orders[id].side == Buy {
      LockCoversClaim(db, id);
      PaidWithinDebt(Taker(db, id), Fetched(db, id), Remaining(db.orders[id]));
      assert Slack(db, FundedBy(db.pairs, db.orders[id])) >= 0;
    } else {
      SellsPayNothing(Taker(db, id), Fetched(db, id), Wanted(db, id));
    }
  }

  lemma {:induction false} SellsPayNothing(taker: Order, makers: seq<Order>, shares: seq<int>)
    requires |makers| == |shares| && taker.side == Sell
    ensures Paid(taker, makers, shares) == 0
  {
    if makers != [] {
      SellsPayNothing(taker, makers[1..], shares[1..]);
    }
  }

  /** A lock that covers what the job wants limits nothing. */
  lemma WantedIsShares(db: Db, atomic: bool, id: nat)
    requires Sound(db) && Matchable(db, id) && (MarketBuy(db.orders[id]) ==> LockCovers(db, id))
    ensures LockCovers(db, id) && Shares(db, atomic, id) == Wanted(db, id)
  {
    if !MarketBuy(db.orders[id]) {
      LimitLockCovers(db, id);
    }
    AffordIsAllocateIff(Taker(db, id), Fetched(db, id), Remaining(db.orders[id]), Budget(db, Taker(db, id)));
  }

  // ---- The job follows its shares ----

  lemma JobIsUnhindered(db: Db, atomic: bool, id: nat)
    requires Matchable(db, id) && (atomic || LockCovers(db, id))
    ensures
      var p := LoopStart(db, id);
      && LoopUnhindered(p, Mode(true, atomic), p.taker, Fetched(db, id))
      && Shares(db, atomic, id) == Afford(p.taker, Fetched(db, id), p.remaining, Budget(p.db, p.taker))
  {
    AffordIsAllocateIff(Taker(db, id), Fetched(db, id), Remaining(db.orders[id]), Budget(db, Taker(db, id)));
  }

  /** Within the cap and with carried fills, a job trades its shares and nothing else. */
  lemma JobFollowsShares(db: Db, atomic: bool, id: nat)
    requires Sound(db) && Capped(db) && Matchable(db, id) && (atomic || LockCovers(db, id))
    ensures
      var p := LoopStart(db, id);
      && id !in Opponents(p.db, id)
      && Follows(p, LoopEnd(db, Mode(true, atomic), id), id, p.taker, Opponents(p.db, id), Fetched(db, id),
                 Shares(db, atomic, id))
  {
    LoopStartInv(db, id);
    JobIsUnhindered(db, atomic, id);
    var p := LoopStart(db, id);
    LoopFollowsShares(p, Mode(true, atomic), id, p.taker, p.db.orders, Opponents(p.db, id));
  }

  lemma JobIsLoop(db: Db, mode: Mode, id: nat)
    requires Matchable(db, id)
    ensures
      var q, db' := LoopEnd(db, mode, id), MatchJob(db, mode, id).db;
      && db' == q.db.(orders := db'.orders) && |db'.orders| == |q.db.orders|
      && (forall i :: 0 <= i < |db'.orders| ==> db'.orders[i].filled == q.db.orders[i].filled)
      && (forall i :: 0 <= i < |db'.orders| && i != id ==> db'.orders[i] == q.db.orders[i])
      && db'.orders[id] == q.db.orders[id].(status :=
           if q.remaining == 0 then Filled
           else if q.remaining < db.orders[id].quantity then Partial else q.db.orders[id].status)
  {
  }

  /**
   * The trades of a job are its shares at the makers' prices, and its makers' fills are its shares.
   * Fill counts carried or stale.
   */
  lemma JobTrades(db: Db, mode: Mode, id: nat)
    requires Sound(db) && Capped(db) && Matchable(db, id) && (mode.atomicTrade || LockCovers(db, id))
    ensures
      var makers, ids, shares := Fetched(db, id), Opponents(LoopStart(db, id).db, id), Shares(db, mode.atomicTrade, id);
      && |ids| == |makers|
      && MatchJob(db, mode, id).db.trades == db.trades + Printed(id, Taker(db, id), ids, makers, shares)
      && (forall i :: 0 <= i < |ids| ==>
            && ids[i] < |db.orders|
            && MatchJob(db, mode, id).db.orders[ids[i]].filled == makers[i].filled + shares[i])
  {
    var carried := Mode(true, mode.atomicTrade);
    JobFollowsShares(db, mode.atomicTrade, id);
    JobIsLoop(db, carried, id);
    StaleFillDiffers(db, mode.atomicTrade, id);
    assert mode == carried || mode == Mode(false, mode.atomicTrade);
  }

  /** How many trades a job executes: its positive shares. */
  lemma JobFillsAreShares(db: Db, mode: Mode, id: nat)
    requires Sound(db) && Capped(db) && Matchable(db, id) && (mode.atomicTrade || LockCovers(db, id))
    ensures JobFills(db, mode, id) == Positives(Shares(db, mode.atomicTrade, id))
  {
    JobFollowsShares(db, mode.atomicTrade, id);
    StaleFillDiffers(db, mode.atomicTrade, id);
    assert mode == Mode(true, mode.atomicTrade) || mode == Mode(false, mode.atomicTrade);
  }

  // ---- What the job leaves ----

  /** What a job leaves unspent of the slack that was there. */
  ghost function SlackLeft(db: Db, atomic: bool, id: nat): int
    requires Matchable(db, id)
  {
    var o, shares := db.orders[id], Shares(db, atomic, id);
    var left := Remaining(o) - Total(shares);
    Slack(db, FundedBy(db.pairs, o))
      + if Remaining(o) < 0 || left < 0 then 0
        else ShedLessPaid(o, Remaining(o), left, Paid(Taker(db, id), Fetched(db, id), shares))
  }

  lemma LoopLeavesInv(db: Db, atomic: bool, id: nat)
    requires Sound(db) && Capped(db) && Matchable(db, id) && (atomic || LockCovers(db, id))
    ensures
      var p, q := LoopStart(db, id), LoopEnd(db, Mode(true, atomic), id);
      && LoopInv(q, id, p.db.orders, []) && q.remaining >= 0 && p.remaining >= 0
      && Slack(q.db, FundedBy(p.db.pairs, p.taker)) == Slack(p.db, FundedBy(p.db.pairs, p.taker))
           + ShedLessPaid(p.taker, p.remaining, q.remaining, Paid(p.taker, Fetched(db, id), Shares(db, atomic, id)))
      && q.taker.pair < |db.pairs| && q.taker.side == db.orders[id].side
      && FundedBy(db.pairs, q.taker) == FundedBy(db.pairs, db.orders[id])
  {
    var mode, p := Mode(true, atomic), LoopStart(db, id);
    var ids := Opponents(p.db, id);
    LoopStartInv(db, id);
    JobIsUnhindered(db, atomic, id);
    LoopSlack(p, mode, id, p.taker, p.db.orders, ids);
    LoopFrame(p, mode, id, p.db.orders, ids);
    SameFunding(p.db, LoopEnd(db, mode, id), id);
  }

  lemma LoopRemaining(db: Db, atomic: bool, id: nat)
    requires Sound(db) && Capped(db) && Matchable(db, id) && (atomic || LockCovers(db, id))
    ensures LoopEnd(db, Mode(true, atomic), id).remaining == Remaining(db.orders[id]) - Total(Shares(db, atomic, id))
  {
    JobFollowsShares(db, atomic, id);
  }

  lemma SameShed(o: Order, taker: Order, before: nat, after: nat, paid: nat)
    requires o.side == taker.side && o.price == taker.price
    ensures ShedLessPaid(o, before, after, paid) == ShedLessPaid(taker, before, after, paid)
  {
  }

  lemma LeavesSlack(db: Db, atomic: bool, id: nat, q: Progress)
    requires Matchable(db, id) && q.remaining >= 0 && Remaining(db.orders[id]) >= 0
    requires q.remaining == Remaining(db.orders[id]) - Total(Shares(db, atomic, id))
    requires
      var p := LoopStart(db, id);
      Slack(q.db, FundedBy(p.db.pairs, p.taker)) == Slack(p.db, FundedBy(p.db.pairs, p.taker))
        + ShedLessPaid(p.taker, p.remaining, q.remaining, Paid(p.taker, Fetched(db, id), Shares(db, atomic, id)))
    ensures Slack(q.db, FundedBy(db.pairs, db.orders[id])) == SlackLeft(db, atomic, id)
  {
    var p := LoopStart(db, id);
    StartSlack(db, id);
    SameShed(db.orders[id], p.taker, p.remaining, q.remaining,
             Paid(p.taker, Fetched(db, id), Shares(db, atomic, id)));
  }

  lemma LoopLeaves(db: Db, atomic: bool, id: nat)
    requires Sound(db) && Capped(db) && Matchable(db, id) && (atomic || LockCovers(db, id))
    ensures Slack(LoopEnd(db, Mode(true, atomic), id).db, FundedBy(db.pairs, db.orders[id]))
         == SlackLeft(db, atomic, id)
  {
    LoopRemaining(db, atomic, id);
    LoopLeavesInv(db, atomic, id);
    LeavesSlack(db, atomic, id, LoopEnd(db, Mode(true, atomic), id));
  }

  /** With carried fills, a job keeps the books and every account solvent, but perhaps the taker's, left as stated. */
  lemma JobLeaves(db: Db, atomic: bool, id: nat)
    requires Sound(db) && Capped(db) && Matchable(db, id) && (atomic || LockCovers(db, id))
    ensures
      var db' := MatchJob(db, Mode(true, atomic), id).db;
      && db'.pairs == db.pairs && Books(db') && SolventBesides(db', db.orders[id])
      && Slack(db', FundedBy(db.pairs, db.orders[id])) == SlackLeft(db, atomic, id)
  {
    var q := LoopEnd(db, Mode(true, atomic), id);
    LoopLeavesInv(db, atomic, id);
    LoopLeaves(db, atomic, id);
    EndFinished(q, id, LoopStart(db, id).db.orders);
    FinishKeeps(q.db, id, db.orders[id].quantity, q.remaining);
    assert MatchJob(db, Mode(true, atomic), id).db == Finish(q.db, id, db.orders[id].quantity, q.remaining);
  }

  lemma EndFinished(q: Progress, id: nat, snapshot: seq<Order>)
    requires LoopInv(q, id, snapshot, []) && q.remaining >= 0
    ensures q.remaining == 0 <==> q.db.orders[id].status == Filled
    ensures q.remaining != 0 ==> Resting(q.db.orders[id].status)
    ensures q.remaining != 0 ==> OrderOk(q.db.pairs, q.db.orders[id].(status := Partial))
  {
    assert OrderOk(q.db.pairs, q.db.orders[id]);
  }

  lemma SameFunding(db: Db, q: Progress, id: nat)
    requires id < |db.orders| && id < |q.db.orders| && q.db.pairs == db.pairs && db.orders[id].pair < |db.pairs|
    requires Terms(q.db.orders[id]) == Terms(db.orders[id]) && Snapshot(q.db.orders[id], q.taker)
    ensures
      && q.taker.pair < |db.pairs| && q.taker.side == db.orders[id].side
      && FundedBy(db.pairs, q.taker) == FundedBy(db.pairs, db.orders[id])
  {
    SameTerms(q.db.orders[id], db.orders[id]);
  }

  /** With carried fills, a job leaves the exchange sound exactly when it leaves the taker's account slack. */
  lemma CarriedJobSoundIff(db: Db, atomic: bool, id: nat)
    requires Sound(db) && Capped(db) && Matchable(db, id) && (atomic || LockCovers(db, id))
    ensures Sound(MatchJob(db, Mode(true, atomic), id).db) <==> SlackLeft(db, atomic, id) >= 0
  {
    JobLeaves(db, atomic, id);
  }
}
