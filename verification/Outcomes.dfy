/** What each operation of the exchange does, in the columns of its rows and in its amounts. */
module Outcomes {
  import opened Sums
  import opened Amounts
  import opened Ledger
  import opened Exchange
  import opened Matching
  import opened Solvency
  import opened Jobs
  import opened Residue
  import opened Allocation
  import opened Fills
  import opened Greedy
  import opened OrderBook
  import opened Agreement
  import opened Crossing

  /** One account moved an amount from available to locked, a negative one back; no other account changed. */
  ghost predicate Locked(before: Balances, after: Balances, account: Account, amount: int) {
    && before.Keys == after.Keys
    && (forall a: Account ::
          && Read(after, a).available == Read(before, a).available - (if a == account then amount else 0)
          && Read(after, a).locked == Read(before, a).locked + (if a == account then amount else 0))
  }

  // ---- Submitting ----

  /** What an order locks: a bid its quantity at its price, rounded down, in quote; an ask its quantity in base. */
  predicate Funds(pairs: seq<Pair>, input: OrderInput, account: Account, amount: nat) {
    && input.pair < |pairs| && account.user == input.user
    && if input.side == Buy
       then && input.price.Some? && account.token == pairs[input.pair].quote
            && amount == input.quantity * input.price.value / 1_000_000_000_000_000_000
       else account.token == pairs[input.pair].base && amount == input.quantity
  }

  /**
   * A submission succeeds exactly when it is admitted, its pair is active, its quantity positive, its
   * price given where it needs one, and its amount available. It then stores the order as it was
   * submitted, waiting for its match and unfilled, locks that amount in that account, and touches
   * nothing else. A submission that fails leaves the exchange as it was.
   */
  lemma SubmitOutcome(db: Db, input: OrderInput, admitted: bool, account: Account, amount: nat)
    requires input.pair < |db.pairs| && (input.side == Buy ==> input.price.Some?) ==>
               Funds(db.pairs, input, account, amount)
    ensures
      var r := Submit(db, input, admitted);
      && (r.ok <==> && admitted && input.pair < |db.pairs| && db.pairs[input.pair].active && input.quantity > 0
                    && (input.price.Some? || (input.kind == Market && input.side == Sell))
                    && account in db.balances && db.balances[account].available >= amount)
      && (!r.ok ==> r.db == db)
      && (r.ok ==>
            && |r.db.orders| == |db.orders| + 1 && r.db.orders[..|db.orders|] == db.orders
            && r.db.pairs == db.pairs && r.db.trades == db.trades && r.db.swaps == db.swaps
            && Locked(db.balances, r.db.balances, account, amount))
  {
    if Submit(db, input, admitted).ok {
      assert Submit(db, input, admitted).db.orders[..|db.orders|] == db.orders;
    } else if account in db.balances {
      assert db.balances[account := db.balances[account]] == db.balances;
      assert Quote(0, input.price.GetOr(0)) == 0;
    }
  }

  /** The row that a submission stores. */
  lemma SubmittedRow(db: Db, input: OrderInput, admitted: bool)
    requires Submit(db, input, admitted).ok
    ensures
      var row := Submit(db, input, admitted).db.orders[|db.orders|];
      && row.user == input.user && row.pair == input.pair && row.side == input.side && row.kind == input.kind
      && row.price == input.price && row.quantity == input.quantity
      && row.status == PendingMatch && row.filled == 0
  {
  }

  // ---- Cancelling ----

  /** A cancel that is refused leaves the exchange as it was, from any state. */
  lemma RefusedCancelIsIdle(db: Db, id: nat, user: UserId)
    ensures !Cancel(db, id, user).ok ==> Cancel(db, id, user).db == db
  {
  }

  /**
   * From a sound state in which the order's funds have a row, a cancel succeeds exactly for the owner of
   * an order that is OPEN or PARTIAL. It then marks the order CANCELLED, frees what is left of it, a bid
   * at its price rounded down, and touches nothing else.
   */
  lemma CancelOutcome(db: Db, id: nat, user: UserId)
    requires Sound(db) && (id < |db.orders| ==> Funding(db, id) in db.balances)
    ensures Cancel(db, id, user).ok
       <==> && id < |db.orders| && db.orders[id].user == user
            && (db.orders[id].status == Open || db.orders[id].status == Partial)
    ensures Cancel(db, id, user).ok ==>
      var o, db' := db.orders[id], Cancel(db, id, user).db;
      && o.pair < |db.pairs| && o.filled <= o.quantity && (o.side == Buy ==> o.price.Some?)
      && db' == db.(balances := db'.balances, orders := db.orders[id := o.(status := Cancelled)])
      && Locked(db.balances, db'.balances,
                Account(user, if o.side == Buy then db.pairs[o.pair].quote else db.pairs[o.pair].base),
                -(if o.side == Buy then (o.quantity - o.filled) * o.price.value / 1_000_000_000_000_000_000
                  else o.quantity - o.filled))
  {
    if id < |db.orders| {
      var o := db.orders[id];
      assert OrderOk(db.pairs, o);
      if o.status == Open || o.status == Partial {
        CancelFreesDebt(db, id);
      }
    }
  }

  // ---- Requesting a swap ----

  /**
   * A swap request succeeds exactly for two different, usable tokens and a positive amount that is
   * available, with the caller's own quote or an amount above 1003. It then stores the request, queued,
   * locks that amount, and touches nothing else.
   */
  lemma RequestOutcome(db: Db, input: SwapInput, usable: bool)
    ensures
      var r, account := RequestSwap(db, input, usable), Account(input.user, input.source);
      && (r.ok <==> && input.source != input.target && usable && input.amount > 0
                    && account in db.balances && db.balances[account].available >= input.amount
                    && (input.quote.Some? || input.amount > 1003))
      && (r.ok ==>
            && |r.db.swaps| == |db.swaps| + 1 && r.db.swaps[..|db.swaps|] == db.swaps
            && r.db.pairs == db.pairs && r.db.orders == db.orders && r.db.trades == db.trades
            && Locked(db.balances, r.db.balances, account, input.amount))
  {
    QuoteExistsIff(input.amount, input.sourceDecimals, input.targetDecimals);
    if RequestSwap(db, input, usable).ok {
      assert RequestSwap(db, input, usable).db.swaps[..|db.swaps|] == db.swaps;
    }
  }

  /** The row that a swap request stores. */
  lemma RequestedRow(db: Db, input: SwapInput, usable: bool)
    requires RequestSwap(db, input, usable).ok
    ensures
      var row := RequestSwap(db, input, usable).db.swaps[|db.swaps|];
      var net := input.amount - input.amount * 25 / 10_000 - input.amount * 15 / 10_000 - 1000;
      && row.user == input.user && row.source == input.source && row.target == input.target
      && row.sourceAmount == input.amount && row.status == Queued
      && (input.quote.Some? ==> row.targetAmount == input.quote.value)
      && (input.quote.None? ==>
            net > 0 && row.targetAmount == ConvertAmount(net, input.sourceDecimals, input.targetDecimals))
  {
    QuoteExistsIff(input.amount, input.sourceDecimals, input.targetDecimals);
  }

  // ---- Swap attempts ----

  /**
   * The status that an attempt leaves, whatever else it does; a finished or missing swap is left alone.
   * What the bridge completes is refused only by a row of the source token that has less locked.
   */
  lemma AttemptStatus(db: Db, id: nat, attemptsMade: nat, maxAttempts: nat, event: AttemptEvent)
    ensures
      var r := SwapAttempt(db, id, attemptsMade, maxAttempts, event);
      if id >= |db.swaps| || db.swaps[id].status == Completed || db.swaps[id].status == Failed
         || db.swaps[id].status == Withdrawn then r == Outcome(db, true)
      else
        && |r.db.swaps| == |db.swaps| && r.db.swaps[id].(status := Queued) == db.swaps[id].(status := Queued)
        && (forall i :: 0 <= i < |db.swaps| && i != id ==> r.db.swaps[i] == db.swaps[i])
        && r.db.orders == db.orders && r.db.trades == db.trades && r.db.pairs == db.pairs
        && (event == Unavailable ==> r.ok && r.db.swaps[id].status == Failed)
        && (event == Completes && r.ok ==> r.db.swaps[id].status == Completed)
        && (event == BridgeFails || event == FailsAfterwards ==> !r.ok)
        && (event == Completes ==>
              var source, amount := Account(db.swaps[id].user, db.swaps[id].source), db.swaps[id].sourceAmount;
              (r.ok <==> source in db.balances ==> db.balances[source].locked >= amount))
        && (!r.ok ==> r.db.swaps[id].status == if attemptsMade + 1 >= maxAttempts then Failed else Queued)
  {
  }

  // ---- One trade ----

  /** The row that a trade inserts, and the two rows that it fills. */
  lemma TradeOutcome(db: Db, mode: Mode, takerId: nat, taker: Order, makerId: nat, maker: Order, quantity: int)
    requires takerId < |db.orders| && makerId < |db.orders| && takerId != makerId && taker.pair < |db.pairs|
    requires ExecuteTrade(db, mode, takerId, taker, makerId, maker, quantity).ok
    ensures
      var db' := ExecuteTrade(db, mode, takerId, taker, makerId, maker, quantity).db;
      && quantity > 0 && maker.price.Some?
      && |db'.trades| == |db.trades| + 1 && db'.trades[..|db.trades|] == db.trades
      && var t := db'.trades[|db.trades|];
      && t.pair == taker.pair && t.price == maker.price.value && t.quantity == quantity
      && t.buyerFee == t.sellerFee == quantity * maker.price.value / 1_000_000_000_000_000_000 * 25 / 10_000
      && (if taker.side == Buy
          then t.buyOrder == takerId && t.sellOrder == makerId && t.buyer == taker.user && t.seller == maker.user
          else t.buyOrder == makerId && t.sellOrder == takerId && t.buyer == maker.user && t.seller == taker.user)
      && |db'.orders| == |db.orders| && db'.pairs == db.pairs && db'.swaps == db.swaps
      && db'.orders[takerId] == db.orders[takerId].(
           filled := taker.filled + quantity,
           status := if taker.filled + quantity == taker.quantity then Filled else Partial)
      && db'.orders[makerId] == db.orders[makerId].(
           filled := maker.filled + quantity,
           status := if maker.filled + quantity == maker.quantity then Filled else Partial)
  {
    assert ExecuteTrade(db, mode, takerId, taker, makerId, maker, quantity).db.trades[..|db.trades|] == db.trades;
  }

  // ---- Matching jobs ----

  /**
   * A job on a missing order or pair is refused, one on a finished order does nothing, one on an
   * inactive pair only cancels.
   */
  lemma IdleJobOutcome(db: Db, mode: Mode, id: nat)
    ensures id >= |db.orders| ==> MatchJob(db, mode, id) == Outcome(db, false)
    ensures id < |db.orders| && db.orders[id].status in {Filled, Cancelled, Rejected} ==>
              MatchJob(db, mode, id) == Outcome(db, true)
    ensures id < |db.orders| && db.orders[id].status in {PendingMatch, Open, Partial} ==>
      if db.orders[id].pair >= |db.pairs| then MatchJob(db, mode, id) == Outcome(db, false)
      else if !db.pairs[db.orders[id].pair].active then
        MatchJob(db, mode, id) == Outcome(db.(orders := db.orders[id := db.orders[id].(status := Cancelled)]), true)
      else Matchable(db, id) && MatchJob(db, mode, id).ok
  {
  }

  /** The taker accepts the row's price: any, at market; its own or better, with a limit. */
  predicate Accepts(taker: Order, row: Order) {
    && row.price.Some?
    && (|| taker.kind == Market
        || (&& taker.price.Some?
            && if taker.side == Buy then row.price.value <= taker.price.value
               else row.price.value >= taker.price.value))
  }

  /** What a row has left, if its price is accepted. */
  function AcceptedVolume(taker: Order): Order -> int {
    (row: Order) => if Accepts(taker, row) then row.quantity - row.filled else 0
  }

  lemma {:induction false} OffersAreAccepted(taker: Order, rows: seq<Order>)
    requires forall i :: 0 <= i < |rows| ==> rows[i].price.Some? ==> rows[i].price.value > 0
    ensures Sum(rows, Offer(taker)) == Sum(rows, AcceptedVolume(taker))
  {
    SumMonotone(rows, Offer(taker), AcceptedVolume(taker));
    SumMonotone(rows, AcceptedVolume(taker), Offer(taker));
  }

  /** The volume that a job has traded. */
  ghost function Volumes(db: Db, mode: Mode, id: nat): int {
    Sum(MatchJob(db, mode, id).db.trades, Volume()) - Sum(db.trades, Volume())
  }

  /**
   * A job trades what its order still wants or what the fetched rows within its price still have,
   * whichever is less. In any mode; a MARKET BUY if its lock pays for that.
   */
  lemma JobVolume(db: Db, mode: Mode, id: nat)
    requires Sound(db) && Capped(db) && Matchable(db, id) && (MarketBuy(db.orders[id]) ==> LockCovers(db, id))
    ensures
      var o := db.orders[id];
      Volumes(db, mode, id) == Min(o.quantity - o.filled, Sum(Fetched(db, id), AcceptedVolume(o)))
  {
    var o, makers := db.orders[id], Fetched(db, id);
    JobTradesWanted(db, mode, id);
    JobHasRemaining(db, id);
    FetchedIsListed(db, id);
    AllocationFeasible(Taker(db, id), makers, Remaining(o));
    var printed := Printed(id, Taker(db, id), Opponents(LoopStart(db, id).db, id), makers, Wanted(db, id));
    PrintedTotals(id, Taker(db, id), Opponents(LoopStart(db, id).db, id), makers, Wanted(db, id));
    SumConcat(db.trades, printed, Volume());
    AllocateTotal(Taker(db, id), makers, Remaining(o));
    OffersAreAccepted(Taker(db, id), makers);
    SameAcceptedVolume(Taker(db, id), o, makers);
  }

  lemma SameAcceptedVolume(taker: Order, o: Order, rows: seq<Order>)
    requires taker.kind == o.kind && taker.side == o.side && taker.price == o.price
    ensures Sum(rows, AcceptedVolume(taker)) == Sum(rows, AcceptedVolume(o))
  {
    SumMonotone(rows, AcceptedVolume(taker), AcceptedVolume(o));
    SumMonotone(rows, AcceptedVolume(o), AcceptedVolume(taker));
  }

  function LeftOver(): Order -> int {
    (row: Order) => row.quantity - row.filled
  }

  /** A MARKET SELL takes every fetched bid until it is filled. */
  lemma MarketSellVolume(db: Db, mode: Mode, id: nat)
    requires Sound(db) && Capped(db) && Matchable(db, id) && db.orders[id].kind == Market && db.orders[id].side == Sell
    ensures
      var o := db.orders[id];
      Volumes(db, mode, id) == Min(o.quantity - o.filled, Sum(Fetched(db, id), LeftOver()))
  {
    var o, rows := db.orders[id], Fetched(db, id);
    JobVolume(db, mode, id);
    FetchedIsListed(db, id);
    SumMonotone(rows, AcceptedVolume(o), LeftOver());
    SumMonotone(rows, LeftOver(), AcceptedVolume(o));
  }

  /** The rows that a job fetches: opposing orders of its pair, as they stood before it. */
  lemma FetchedRows(db: Db, id: nat)
    requires Matchable(db, id)
    ensures
      var o, ids, rows := db.orders[id], Opponents(LoopStart(db, id).db, id), Fetched(db, id);
      && |ids| == |rows| <= 100
      && (forall i :: 0 <= i < |ids| ==>
            && ids[i] < |db.orders| && ids[i] != id && rows[i] == db.orders[ids[i]]
            && rows[i].pair == o.pair && rows[i].side != o.side
            && (rows[i].status == Open || rows[i].status == Partial))
      && (forall other: nat ::
            other < |db.orders| && db.orders[other].pair == o.pair && db.orders[other].side != o.side
            && (db.orders[other].status == Open || db.orders[other].status == Partial) && other !in ids ==>
            |ids| == 100 && forall i :: 0 <= i < |ids| ==> InTurn(db.orders, rows[i].side, ids[i], other))
  {
    var p := LoopStart(db, id);
    FetchInTurn(p.db.orders, p.taker.pair, Opposite(p.taker.side));
  }

  /**
   * The order after its job: filled when the volume is all it wanted, partial when it has traded, now or
   * before, and open otherwise. Nothing but its status and fill count changes.
   */
  lemma JobStatus(db: Db, mode: Mode, id: nat)
    requires Sound(db) && Capped(db) && Matchable(db, id) && (MarketBuy(db.orders[id]) ==> LockCovers(db, id))
    ensures
      var o, row, volume := db.orders[id], MatchJob(db, mode, id).db.orders[id], Volumes(db, mode, id);
      && row.status == (if volume == o.quantity - o.filled then Filled
                        else if volume > 0 || o.filled > 0 then Partial
                        else if o.status == PendingMatch then Open else o.status)
      && row == o.(status := row.status, filled := row.filled)
  {
    var carried := Mode(true, mode.atomicTrade);
    JobVolume(db, mode, id);
    CarriedJobStatus(db, mode.atomicTrade, id);
    StaleFillDiffers(db, mode.atomicTrade, id);
    assert mode == carried || mode == Mode(false, mode.atomicTrade);
  }

  lemma CarriedJobStatus(db: Db, atomic: bool, id: nat)
    requires Sound(db) && Capped(db) && Matchable(db, id) && (MarketBuy(db.orders[id]) ==> LockCovers(db, id))
    ensures
      var o, r := db.orders[id], MatchJob(db, Mode(true, atomic), id).db;
      var row, volume := r.orders[id], Volumes(db, Mode(true, atomic), id);
      && row.status == (if volume == o.quantity - o.filled then Filled
                        else if volume > 0 || o.filled > 0 then Partial
                        else if o.status == PendingMatch then Open else o.status)
      && row == o.(status := row.status, filled := row.filled)
  {
    var mode, p := Mode(true, atomic), LoopStart(db, id);
    var ids := Opponents(p.db, id);
    JobVolume(db, mode, id);
    WantedIsShares(db, atomic, id);
    LoopRemaining(db, atomic, id);
    JobIsLoop(db, mode, id);
    JobHasRemaining(db, id);
    FetchedIsListed(db, id);
    AllocateTotal(Taker(db, id), Fetched(db, id), Remaining(db.orders[id]));
    OffersAreAccepted(Taker(db, id), Fetched(db, id));
    SameAcceptedVolume(Taker(db, id), db.orders[id], Fetched(db, id));
    LoopStartInv(db, id);
    IdleLoop(p, mode, id, p.db.orders, ids);
    LoopFrame(p, mode, id, p.db.orders, ids);
    SameTerms(db.orders[id], MatchJob(db, mode, id).db.orders[id]);
  }

  /** A loop that trades nothing writes no order. */
  lemma {:induction false} IdleLoop(p: Progress, mode: Mode, takerId: nat, snapshot: seq<Order>, ids: seq<nat>)
    requires LoopReady(p, takerId, snapshot, ids)
    ensures
      var q := MatchLoop(p, mode, takerId, snapshot, ids);
      q.remaining <= p.remaining && (q.remaining == p.remaining ==> q.db.orders == p.db.orders)
    decreases |ids|
  {
    if ids != [] && p.remaining != 0 {
      IdleLoop(MatchOne(p, mode, takerId, ids[0], snapshot[ids[0]]), mode, takerId, snapshot, ids[1..]);
    }
  }

  // ---- Re-matching ----

  /** The order takes any price, or both have one and they cross. */
  predicate Meets(order: Order, resting: Order) {
    || order.kind == Market
    || (&& order.price.Some? && resting.price.Some?
        && (order.side == Buy ==> order.price.value >= resting.price.value)
        && (order.side == Sell ==> order.price.value <= resting.price.value))
  }

  /**
   * The orders queued again when an order comes to rest: of the opposing orders it would fetch, the
   * first ten that take any price, or whose own price and its price meet.
   */
  lemma RematchRows(db: Db, id: nat)
    requires id < |db.orders|
    ensures
      var o, ids, r := db.orders[id], Opponents(db, id), Rematches(db, id);
      && |r| <= 10
      && (forall x: nat :: x in r ==> x in ids && x < |db.orders| && Meets(db.orders[x], o))
      && (forall i, j :: 0 <= i < j < |r| ==>
            r[i] < |db.orders| && r[j] < |db.orders| && InTurn(db.orders, Opposite(o.side), r[i], r[j]))
      && (forall x: nat :: x in ids && x < |db.orders| && Meets(db.orders[x], o) && x !in r ==> |r| == 10)
  {
    var o, r := db.orders[id], Rematches(db, id);
    RematchesSpec(db, id);
    RematchesInTurn(db, id);
    forall x: nat | x < |db.orders| ensures CanMatch(db.orders[x], o) == Meets(db.orders[x], o) {
    }
  }

  lemma RematchesInTurn(db: Db, id: nat)
    requires id < |db.orders|
    ensures
      var r := Rematches(db, id);
      forall i, j :: 0 <= i < j < |r| ==>
        r[i] < |db.orders| && r[j] < |db.orders| && InTurn(db.orders, Opposite(db.orders[id].side), r[i], r[j])
  {
    var o, ids, r := db.orders[id], Opponents(db, id), Rematches(db, id);
    FetchSpec(db.orders, o.pair, Opposite(o.side));
    WillingSpec(db.orders, Opposite(o.side), o, ids);
    var all := Willing(db.orders, o, ids);
    forall i, j | 0 <= i < j < |r|
      ensures r[i] < |db.orders| && r[j] < |db.orders| && InTurn(db.orders, Opposite(o.side), r[i], r[j])
    {
      assert r[i] == all[i] && r[j] == all[j] && Precedes(db.orders, Opposite(o.side), all[i], all[j]);
    }
  }
}
