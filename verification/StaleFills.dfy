/**
 * The stale fill count, on the rows that a job fetches: when it shows, what it stores, and exactly when
 * the exchange survives it.
 */
module StaleFills {
  import opened Sums
  import opened Amounts
  import opened Ledger
  import opened Exchange
  import opened Matching
  import opened Solvency
  import opened Jobs
  import opened Agreement
  import opened Allocation
  import opened Fills
  import opened Greedy

  // ---- When it shows ----

  /** The second maker is within the price and the first does not fill the taker. */
  predicate TakesTwo(taker: Order, makers: seq<Order>) {
    |makers| >= 2 && Tradable(taker, makers[1]) && Remaining(makers[0]) < Remaining(taker)
  }

  lemma {:induction false} NoneTradable(taker: Order, makers: seq<Order>, remaining: int)
    requires remaining == 0 || forall i :: 0 <= i < |makers| ==> !Tradable(taker, makers[i])
    requires HaveRemaining(makers)
    ensures Positives(Allocate(taker, makers, remaining)) == 0
    ensures Paid(taker, makers, Allocate(taker, makers, remaining)) == 0
  {
    if makers != [] {
      NoneTradable(taker, makers[1..], remaining);
      assert Allocate(taker, makers, remaining) == [0] + Allocate(taker, makers[1..], remaining);
    }
  }

  lemma UntradableBehind(taker: Order, makers: seq<Order>, i: nat, j: nat)
    requires Listed(taker, makers) && i < j < |makers| && !Tradable(taker, makers[i])
    ensures !Tradable(taker, makers[j])
  {
  }

  lemma TakesTwoIff(taker: Order, makers: seq<Order>)
    requires Listed(taker, makers) && Remaining(taker) > 0
    ensures Positives(Allocate(taker, makers, Remaining(taker))) >= 2 <==> TakesTwo(taker, makers)
  {
    var remaining := Remaining(taker);
    if |makers| >= 2 {
      var first := Fill(taker, makers[0], remaining);
      var left := remaining - first;
      var second := Fill(taker, makers[1], left);
      assert makers[1..][0] == makers[1] && makers[1..][1..] == makers[2..];
      assert Allocate(taker, makers, remaining) == [first] + Allocate(taker, makers[1..], left);
      assert Allocate(taker, makers[1..], left) == [second] + Allocate(taker, makers[2..], left - second);
      if Tradable(taker, makers[1]) {
        TradableAhead(taker, makers, 0, 1);
        if left == 0 {
          NoneTradable(taker, makers[1..], left);
        }
      } else {
        forall i | 0 <= i < |makers[1..]| ensures !Tradable(taker, makers[1..][i]) {
          if i > 0 {
            UntradableBehind(taker, makers, 1, i + 1);
          }
        }
        NoneTradable(taker, makers[1..], left);
      }
    }
  }

  lemma LimitFillsIff(db: Db, atomic: bool, id: nat)
    requires Sound(db) && Capped(db) && Matchable(db, id) && (MarketBuy(db.orders[id]) ==> LockCovers(db, id))
    ensures LockCovers(db, id) && Shares(db, atomic, id) == Wanted(db, id)
    ensures Positives(Shares(db, atomic, id)) >= 2 <==> TakesTwo(Taker(db, id), Fetched(db, id))
  {
    WantedIsShares(db, atomic, id);
    FetchedIsListed(db, id);
    JobHasRemaining(db, id);
    TakesTwoIff(Taker(db, id), Fetched(db, id));
  }

  /**
   * In a sound, capped state the stale count shows exactly when the job has two positive shares: when
   * the second order fetched is within the price and the first does not fill the taker. Where refusals
   * are undone, a MARKET BUY short of funds passes over what it cannot pay, which its shares say.
   */
  lemma StaleFillShowsIff(db: Db, atomic: bool, id: nat)
    requires Sound(db) && Capped(db) && Matchable(db, id)
    requires MarketBuy(db.orders[id]) && !atomic ==> LockCovers(db, id)
    ensures MatchJob(db, Mode(false, atomic), id) != MatchJob(db, Mode(true, atomic), id)
       <==> Positives(Shares(db, atomic, id)) >= 2
    ensures (MarketBuy(db.orders[id]) ==> LockCovers(db, id)) ==>
              (MatchJob(db, Mode(false, atomic), id) != MatchJob(db, Mode(true, atomic), id)
               <==> TakesTwo(Taker(db, id), Fetched(db, id)))
  {
    if MarketBuy(db.orders[id]) ==> LockCovers(db, id) {
      LimitFillsIff(db, atomic, id);
    }
    JobFillsAreShares(db, Mode(true, atomic), id);
    StaleFillDiffers(db, atomic, id);
  }

  // ---- What it stores ----

  /** The quantity of the last fill, or zero. */
  function LastShare(shares: seq<int>): (last: int)
    ensures last >= 0
  {
    if shares == [] then 0
    else
      var later := LastShare(shares[1..]);
      if later > 0 then later else Max(shares[0], 0)
  }

  lemma StaleTurn(
    stale: Progress, carried: Progress, atomic: bool, takerId: nat, makerId: nat, maker: Order, filled: nat, start: int)
    requires Alike(stale, carried, takerId, filled, start)
    requires makerId < |carried.db.orders| && makerId != takerId && carried.taker.pair < |carried.db.pairs|
    ensures
      var q := MatchOne(stale, Mode(false, atomic), takerId, makerId, maker);
      var r := MatchOne(carried, Mode(true, atomic), takerId, makerId, maker);
      q.db.orders[takerId].filled == if r.executed > carried.executed then filled + (carried.remaining - r.remaining)
                                     else stale.db.orders[takerId].filled
  {
    AlikeAfterOne(stale, carried, atomic, takerId, makerId, maker, filled, start);
  }

  /** The two loops after a turn, and what the stale one has stored. */
  lemma TurnStores(
    stale: Progress, carried: Progress, atomic: bool, takerId: nat, taker: Order, snapshot: seq<Order>, ids: seq<nat>,
    filled: nat, start: int)
    requires LoopReady(stale, takerId, snapshot, ids) && Alike(stale, carried, takerId, filled, start)
    requires LoopInv(carried, takerId, snapshot, ids) && Capped(carried.db) && ids != [] && carried.remaining != 0
    requires carried.taker == taker.(filled := carried.taker.filled)
    requires LoopUnhindered(carried, Mode(true, atomic), taker, Rows(snapshot, ids))
    ensures
      var makers, maker := Rows(snapshot, ids), snapshot[ids[0]];
      var q := MatchOne(stale, Mode(false, atomic), takerId, ids[0], maker);
      var r := MatchOne(carried, Mode(true, atomic), takerId, ids[0], maker);
      var shares := Afford(taker, makers, carried.remaining, Budget(carried.db, carried.taker));
      && LoopReady(q, takerId, snapshot, ids[1..]) && Alike(q, r, takerId, filled, start)
      && LoopInv(r, takerId, snapshot, ids[1..]) && Capped(r.db) && r.taker == taker.(filled := r.taker.filled)
      && Rows(snapshot, ids[1..]) == makers[1..] && LoopUnhindered(r, Mode(true, atomic), taker, makers[1..])
      && shares[1..] == Afford(taker, makers[1..], r.remaining, Budget(r.db, r.taker))
      && q.db.orders[takerId].filled == if shares[0] > 0 then filled + shares[0] else stale.db.orders[takerId].filled
  {
    var maker := snapshot[ids[0]];
    TurnAndRest(carried, Mode(true, atomic), takerId, taker, snapshot, ids);
    AlikeAfterOne(stale, carried, atomic, takerId, ids[0], maker, filled, start);
    StaleTurn(stale, carried, atomic, takerId, ids[0], maker, filled, start);
  }

  lemma {:induction false} LoopStoresLast(
    stale: Progress, carried: Progress, atomic: bool, takerId: nat, taker: Order, snapshot: seq<Order>, ids: seq<nat>,
    filled: nat, start: int)
    requires LoopReady(stale, takerId, snapshot, ids) && Alike(stale, carried, takerId, filled, start)
    requires LoopInv(carried, takerId, snapshot, ids) && Capped(carried.db)
    requires carried.taker == taker.(filled := carried.taker.filled)
    requires LoopUnhindered(carried, Mode(true, atomic), taker, Rows(snapshot, ids))
    ensures
      var last := LastShare(Afford(taker, Rows(snapshot, ids), carried.remaining, Budget(carried.db, carried.taker)));
      MatchLoop(stale, Mode(false, atomic), takerId, snapshot, ids).db.orders[takerId].filled
        == if last > 0 then filled + last else stale.db.orders[takerId].filled
    decreases |ids|
  {
    var makers, budget := Rows(snapshot, ids), Budget(carried.db, carried.taker);
    if carried.remaining == 0 || ids == [] {
      if carried.remaining == 0 {
        LoopHasRemaining(carried, takerId, snapshot, ids);
        NothingLeft(taker, makers, budget);
        NoLastShare(Afford(taker, makers, 0, budget));
      }
    } else {
      TurnStores(stale, carried, atomic, takerId, taker, snapshot, ids, filled, start);
      LoopStoresLast(MatchOne(stale, Mode(false, atomic), takerId, ids[0], snapshot[ids[0]]),
                     MatchOne(carried, Mode(true, atomic), takerId, ids[0], snapshot[ids[0]]),
                     atomic, takerId, taker, snapshot, ids[1..], filled, start);
    }
  }

  lemma {:induction false} NoLastShare(shares: seq<int>)
    requires forall i :: 0 <= i < |shares| ==> shares[i] == 0
    ensures LastShare(shares) == 0
  {
    if shares != [] {
      NoLastShare(shares[1..]);
    }
  }

  /** A job with stale counts stores the last fill alone; with carried counts it stores them all. */
  lemma JobStores(db: Db, atomic: bool, id: nat)
    requires Sound(db) && Capped(db) && Matchable(db, id) && (atomic || LockCovers(db, id))
    ensures
      var o, shares := db.orders[id], Shares(db, atomic, id);
      && MatchJob(db, Mode(false, atomic), id).db.orders[id].filled == o.filled + LastShare(shares)
      && MatchJob(db, Mode(true, atomic), id).db.orders[id].filled == o.filled + Total(shares)
  {
    var p := LoopStart(db, id);
    LoopStartInv(db, id);
    JobIsUnhindered(db, atomic, id);
    LoopStoresLast(p, p, atomic, id, p.taker, p.db.orders, Opponents(p.db, id), p.taker.filled, p.remaining);
    JobIsLoop(db, Mode(false, atomic), id);
    JobIsLoop(db, Mode(true, atomic), id);
    LoopLeavesInv(db, atomic, id);
    LoopRemaining(db, atomic, id);
    LoopFrame(p, Mode(true, atomic), id, p.db.orders, Opponents(p.db, id));
    SameTerms(LoopEnd(db, Mode(true, atomic), id).db.orders[id], p.db.orders[id]);
  }

  // ---- What it costs ----

  /**
   * The job's row as it claims, its fills as they were paid, and the slack of the taker's account: what
   * a job with stale counts must find so that no lock falls short.
   */
  ghost predicate StaleAbsorbed(db: Db, atomic: bool, id: nat)
    requires Matchable(db, id)
  {
    var o, shares := db.orders[id], Shares(db, atomic, id);
    var left, claimed := Remaining(o) - Total(shares), Remaining(o) - LastShare(shares);
    var slack := Slack(db, FundedBy(db.pairs, o));
    if o.side == Buy
    then o.price.Some? && claimed >= 0 && Remaining(o) >= 0
         && (if left == 0 then 0 else Quote(claimed, o.price.value))
            + Paid(Taker(db, id), Fetched(db, id), shares) <= slack + Quote(Remaining(o), o.price.value)
    else left == 0 || Total(shares) - LastShare(shares) <= slack
  }

  lemma StaleSlack(stale: Db, carried: Db, id: nat, a: Account)
    requires id < |carried.orders| == |stale.orders|
    requires stale == carried.(orders := carried.orders[id := stale.orders[id]])
    ensures Slack(stale, a) == Slack(carried, a)
              + OrderDebt(carried.pairs, a)(carried.orders[id]) - OrderDebt(carried.pairs, a)(stale.orders[id])
  {
    SumUpdate(carried.orders, id, stale.orders[id], OrderDebt(carried.pairs, a));
  }

  /** The taker's row after a job with carried counts. */
  lemma CarriedRow(db: Db, atomic: bool, id: nat)
    requires Sound(db) && Capped(db) && Matchable(db, id) && (atomic || LockCovers(db, id))
    ensures
      var row, o := MatchJob(db, Mode(true, atomic), id).db.orders[id], db.orders[id];
      && row.user == o.user && row.pair == o.pair && row.side == o.side && row.price == o.price
      && row.quantity == o.quantity && (Live(row.status) <==> Remaining(o) - Total(Shares(db, atomic, id)) != 0)
  {
    var p, q := LoopStart(db, id), LoopEnd(db, Mode(true, atomic), id);
    JobIsLoop(db, Mode(true, atomic), id);
    LoopStartInv(db, id);
    LoopFrame(p, Mode(true, atomic), id, p.db.orders, Opponents(p.db, id));
    SameTerms(q.db.orders[id], p.db.orders[id]);
    LoopLeavesInv(db, atomic, id);
    EndFinished(q, id, p.db.orders);
    LoopRemaining(db, atomic, id);
  }

  /** What the two rows claim, against what is left. */
  lemma StaleClaim(db: Db, atomic: bool, id: nat, stale: Order, carried: Order)
    requires Matchable(db, id) && Remaining(db.orders[id]) > 0 && stale == carried.(filled := stale.filled)
    requires Slack(db, FundedBy(db.pairs, db.orders[id])) >= 0
    requires
      var o, shares := db.orders[id], Shares(db, atomic, id);
      && carried.user == o.user && carried.pair == o.pair && carried.side == o.side && carried.price == o.price
      && carried.quantity == o.quantity && (o.side == Buy ==> o.price.Some?)
      && stale.filled == o.filled + LastShare(shares) <= carried.filled == o.filled + Total(shares) <= o.quantity
      && (Live(carried.status) <==> Remaining(o) - Total(shares) != 0)
    ensures
      var account := FundedBy(db.pairs, db.orders[id]);
      var claims := OrderDebt(db.pairs, account)(stale) - OrderDebt(db.pairs, account)(carried);
      && (SlackLeft(db, atomic, id) - claims >= 0 <==> StaleAbsorbed(db, atomic, id))
      && (forall a: Account :: a != account ==> OrderDebt(db.pairs, a)(stale) == OrderDebt(db.pairs, a)(carried) == 0)
  {
    if db.orders[id].side == Buy {
      assert Quote(0, db.orders[id].price.value) == 0;
    }
  }

  /** A job with stale counts keeps a sound exchange solvent exactly when the slack there was absorbs its claim. */
  lemma StaleJobSolventIff(db: Db, atomic: bool, id: nat)
    requires Sound(db) && Capped(db) && Matchable(db, id)
    requires MarketBuy(db.orders[id]) && !atomic ==> LockCovers(db, id)
    ensures Solvent(MatchJob(db, Mode(false, atomic), id).db) <==> StaleAbsorbed(db, atomic, id)
  {
    if !MarketBuy(db.orders[id]) {
      LimitLockCovers(db, id);
    }
    var stale, carried := MatchJob(db, Mode(false, atomic), id).db, MatchJob(db, Mode(true, atomic), id).db;
    StaleFillDiffers(db, atomic, id);
    JobLeaves(db, atomic, id);
    StaleRows(db, atomic, id);
    StaleClaim(db, atomic, id, stale.orders[id], carried.orders[id]);
    StaleSolventIff(db, stale, carried, id, SlackLeft(db, atomic, id));
  }

  lemma {:induction false} LastWithinTotal(taker: Order, makers: seq<Order>, remaining: nat)
    requires HaveRemaining(makers)
    ensures 0 <= LastShare(Allocate(taker, makers, remaining)) <= Total(Allocate(taker, makers, remaining)) <= remaining
  {
    if makers != [] {
      LastWithinTotal(taker, makers[1..], remaining - Fill(taker, makers[0], remaining));
    }
  }

  /** A limit order that its job fills overclaims nothing. */
  lemma FilledIsAbsorbed(db: Db, atomic: bool, id: nat)
    requires Sound(db) && Matchable(db, id) && !MarketBuy(db.orders[id])
    requires Total(Wanted(db, id)) == Remaining(db.orders[id])
    ensures Shares(db, atomic, id) == Wanted(db, id) && StaleAbsorbed(db, atomic, id)
  {
    LimitLockCovers(db, id);
    JobHasRemaining(db, id);
    AffordIsAllocateIff(Taker(db, id), Fetched(db, id), Remaining(db.orders[id]), Budget(db, Taker(db, id)));
    LastWithinTotal(Taker(db, id), Fetched(db, id), Remaining(db.orders[id]));
    assert OrderOk(db.pairs, db.orders[id]) && Slack(db, FundedBy(db.pairs, db.orders[id])) >= 0;
    if db.orders[id].side == Buy {
      PaidWithinDebt(Taker(db, id), Fetched(db, id), Remaining(db.orders[id]));
    }
  }

  lemma StaleRows(db: Db, atomic: bool, id: nat)
    requires Sound(db) && Capped(db) && Matchable(db, id) && (atomic || LockCovers(db, id))
    ensures
      var o, shares := db.orders[id], Shares(db, atomic, id);
      var stale := MatchJob(db, Mode(false, atomic), id).db.orders[id];
      var carried := MatchJob(db, Mode(true, atomic), id).db.orders[id];
      && Remaining(o) > 0 && stale == carried.(filled := stale.filled)
      && carried.user == o.user && carried.pair == o.pair && carried.side == o.side && carried.price == o.price
      && carried.quantity == o.quantity && (o.side == Buy ==> o.price.Some?)
      && stale.filled == o.filled + LastShare(shares) <= carried.filled == o.filled + Total(shares) <= o.quantity
      && (Live(carried.status) <==> Remaining(o) - Total(shares) != 0)
  {
    StaleFillDiffers(db, atomic, id);
    JobStores(db, atomic, id);
    CarriedRow(db, atomic, id);
    JobHasRemaining(db, id);
    LoopRemaining(db, atomic, id);
    LoopLeavesInv(db, atomic, id);
    assert OrderOk(db.pairs, db.orders[id]);
  }

  lemma StaleSolventIff(db: Db, stale: Db, carried: Db, id: nat, left: int)
    requires id < |db.orders| == |carried.orders| == |stale.orders| && carried.pairs == db.pairs
    requires stale == carried.(orders := carried.orders[id := stale.orders[id]])
    requires db.orders[id].pair < |db.pairs| && SolventBesides(carried, db.orders[id])
    requires Slack(carried, FundedBy(db.pairs, db.orders[id])) == left
    requires forall a: Account :: a != FundedBy(db.pairs, db.orders[id]) ==>
               OrderDebt(db.pairs, a)(stale.orders[id]) == OrderDebt(db.pairs, a)(carried.orders[id]) == 0
    ensures
      var account := FundedBy(db.pairs, db.orders[id]);
      Solvent(stale) <==> left - (OrderDebt(db.pairs, account)(stale.orders[id])
                                  - OrderDebt(db.pairs, account)(carried.orders[id])) >= 0
  {
    var account := FundedBy(db.pairs, db.orders[id]);
    forall a: Account { StaleSlack(stale, carried, id, a); }
    assert Slack(stale, account) == left + OrderDebt(db.pairs, account)(carried.orders[id])
                                    - OrderDebt(db.pairs, account)(stale.orders[id]);
  }
}
