/** What a BUY order locks, pays and gets back. */
module Residue {
  import opened Sums
  import opened Amounts
  import opened Ledger
  import opened Exchange
  import opened Matching
  import opened Solvency
  import opened Jobs
  import opened Agreement
  import opened Allocation
  import opened Fills
  import opened Counts

  function PaidBy(id: nat): Trade -> int {
    (t: Trade) => if t.buyOrder == id then Quote(t.quantity, t.price) else 0
  }

  function BoughtBy(id: nat): Trade -> int {
    (t: Trade) => if t.buyOrder == id then 1 else 0
  }

  /** What the lock still holds of an order after its trades and the refund due on what is left. */
  ghost function ResidueOf(db: Db, id: nat): int
    requires id < |db.orders|
  {
    AmountToLock(Buy, db.orders[id].price, db.orders[id].quantity).GetOr(0)
    - Sum(db.trades, PaidBy(id)) - DebtAmount(db.orders[id])
  }

  /** Trades of one buy order inside its quantity and price: floors only ever leave something over. */
  lemma {:induction false} ResidueOfTrades(trades: seq<Trade>, id: nat, quantity: nat, price: nat)
    requires forall k :: 0 <= k < |trades| ==> trades[k].sellOrder != id
    requires forall k :: 0 <= k < |trades| && trades[k].buyOrder == id ==> trades[k].price <= price
    requires Traded(trades, id) <= quantity
    ensures 0 <= Traded(trades, id)
    ensures Sum(trades, PaidBy(id)) + Quote(quantity - Traded(trades, id), price) <= Quote(quantity, price)
    ensures (forall k :: 0 <= k < |trades| && trades[k].buyOrder == id ==> trades[k].price == price)
            ==> Quote(quantity, price) <= Sum(trades, PaidBy(id)) + Quote(quantity - Traded(trades, id), price)
                                          + Sum(trades, BoughtBy(id))
  {
    if |trades| > 0 {
      var k := |trades| - 1;
      var t := trades[k];
      assert Traded(trades, id) == Traded(trades[..k], id) + FillOf(id)(t);
      ResidueOfTrades(trades[..k], id, quantity, price);
      if t.buyOrder == id {
        QuoteSplit(quantity - Traded(trades, id), t.quantity, price);
        QuoteMonotone(t.quantity, t.price, price);
      }
    }
  }

  /**
   * In every sound state, hence after every documented run: lock less payments less refund is never
   * negative, and when all prints were at the order's own price it is at most the number of prints.
   */
  lemma LockCoversPaymentsAndRefund(db: Db, id: nat)
    requires Sound(db) && id < |db.orders| && db.orders[id].side == Buy && db.orders[id].kind != Market
    ensures 0 <= ResidueOf(db, id)
    ensures (forall k :: 0 <= k < |db.trades| && db.trades[k].buyOrder == id
                         ==> Some(db.trades[k].price) == db.orders[id].price)
            ==> ResidueOf(db, id) <= Sum(db.trades, BoughtBy(id))
  {
    var o := db.orders[id];
    assert OrderOk(db.pairs, o) && Traded(db.trades, id) == o.filled;
    forall k | 0 <= k < |db.trades|
      ensures db.trades[k].sellOrder != id && (db.trades[k].buyOrder == id ==> db.trades[k].price <= o.price.value)
    {
      assert TradeOk(db.orders, db.trades[k]);
    }
    ResidueOfTrades(db.trades, id, o.quantity, o.price.value);
  }

  /** The account that funds an order: its row has existed since the order locked. */
  ghost function Funding(db: Db, id: nat): Account
    requires Sound(db) && id < |db.orders|
  {
    assert OrderOk(db.pairs, db.orders[id]);
    FundedBy(db.pairs, db.orders[id])
  }

  /** In a sound state the owner's cancel of a resting order is never refused, and frees exactly what it owed. */
  lemma CancelFreesDebt(db: Db, id: nat)
    requires Sound(db) && id < |db.orders| && Resting(db.orders[id].status)
    requires Funding(db, id) in db.balances
    ensures
      var o, a := db.orders[id], Funding(db, id);
      var r := Cancel(db, id, o.user);
      && r.ok && r.db == db.(balances := r.db.balances, orders := SetStatus(db.orders, id, Cancelled))
      && r.db.balances[a].available == db.balances[a].available + DebtAmount(o)
      && r.db.balances[a].locked == db.balances[a].locked - DebtAmount(o)
      && (forall b: Account :: b != a ==> Read(r.db.balances, b) == Read(db.balances, b))
  {
    var o, a := db.orders[id], Funding(db, id);
    assert OrderOk(db.pairs, o);
    assert Slack(db, a) >= 0;
    OwesAtMostOwed(db, a, id);
  }

  /** Nothing that the order's job fetches is within its price. */
  predicate FindsNothing(db: Db, id: nat)
    requires Matchable(db, id)
  {
    forall i :: 0 <= i < |Fetched(db, id)| ==> !Tradable(Taker(db, id), Fetched(db, id)[i])
  }

  lemma {:induction false} LoopFindsNothing(p: Progress, mode: Mode, takerId: nat, snapshot: seq<Order>, ids: seq<nat>)
    requires LoopReady(p, takerId, snapshot, ids)
    requires forall i :: 0 <= i < |ids| ==> !Tradable(p.taker, snapshot[ids[i]])
    ensures MatchLoop(p, mode, takerId, snapshot, ids) == p
    decreases |ids|
  {
    if ids != [] && p.remaining != 0 {
      assert MatchOne(p, mode, takerId, ids[0], snapshot[ids[0]]) == p;
      LoopFindsNothing(p, mode, takerId, snapshot, ids[1..]);
    }
  }

  /** Such a job only opens its order. In any mode, from any state. */
  lemma JobFindsNothing(db: Db, mode: Mode, id: nat)
    requires Matchable(db, id) && FindsNothing(db, id)
    requires db.orders[id].status == PendingMatch && db.orders[id].filled == 0 < db.orders[id].quantity
    ensures MatchJob(db, mode, id).db == db.(orders := SetStatus(db.orders, id, Open))
  {
    OpponentsReady(db, id);
    var p := LoopStart(db, id);
    var ids := Opponents(p.db, id);
    forall i | 0 <= i < |ids| ensures !Tradable(p.taker, p.db.orders[ids[i]]) {
      assert Fetched(db, id)[i] == p.db.orders[ids[i]];
    }
    LoopFindsNothing(p, mode, id, p.db.orders, ids);
  }

  lemma CancelUndoesLock(db: Db, input: OrderInput, matched: Db)
    requires Submit(db, input, true).ok
    requires
      var s := Submit(db, input, true).db;
      matched == s.(orders := SetStatus(s.orders, |db.orders|, Open))
    ensures
      var r := Cancel(matched, |db.orders|, input.user);
      r.ok && r.db.balances == db.balances && r.db.trades == db.trades
  {
    var s := Submit(db, input, true).db;
    var a := Account(input.user, LockedToken(db.pairs[input.pair], input.side));
    var amount := AmountToLock(input.side, input.price, input.quantity).value;
    assert s.balances == db.balances[a := Balance(db.balances[a].available - amount, db.balances[a].locked + amount)];
    assert s.balances[a := db.balances[a]] == db.balances;
  }

  /**
   * Submitting an order, finding nothing within its price and cancelling restores every balance. In any
   * mode, from any state, for any kind of order.
   */
  lemma CancelUndoesSubmit(db: Db, mode: Mode, input: OrderInput)
    requires Submit(db, input, true).ok
    requires Matchable(Submit(db, input, true).db, |db.orders|)
             ==> FindsNothing(Submit(db, input, true).db, |db.orders|)
    ensures
      var matched := MatchJob(Submit(db, input, true).db, mode, |db.orders|).db;
      var r := Cancel(matched, |db.orders|, input.user);
      r.ok && r.db.balances == db.balances && r.db.trades == db.trades
  {
    var s, id := Submit(db, input, true).db, |db.orders|;
    assert Matchable(s, id);
    JobFindsNothing(s, mode, id);
    CancelUndoesLock(db, input, MatchJob(s, mode, id).db);
  }

  /** With rollback the same holds when every trade that the job attempted was refused. */
  lemma CancelUndoesRefused(db: Db, mode: Mode, input: OrderInput)
    requires mode.atomicTrade && Submit(db, input, true).ok
    requires JobFills(Submit(db, input, true).db, mode, |db.orders|) == 0
    ensures
      var matched := MatchJob(Submit(db, input, true).db, mode, |db.orders|).db;
      var r := Cancel(matched, |db.orders|, input.user);
      r.ok && r.db.balances == db.balances && r.db.trades == db.trades
  {
    var s, id := Submit(db, input, true).db, |db.orders|;
    assert Matchable(s, id);
    IdleJob(s, mode, id);
    CancelUndoesLock(db, input, MatchJob(s, mode, id).db);
  }

  /** A job that trades nothing only opens its order. */
  lemma IdleJob(db: Db, mode: Mode, id: nat)
    requires mode.atomicTrade && Matchable(db, id) && JobFills(db, mode, id) == 0
    requires db.orders[id].status == PendingMatch && db.orders[id].filled == 0 < db.orders[id].quantity
    ensures MatchJob(db, mode, id).db == db.(orders := SetStatus(db.orders, id, Open))
  {
    OpponentsReady(db, id);
    var p := LoopStart(db, id);
    UntouchedOrTraded(p, mode, id, p.db.orders, Opponents(p.db, id));
  }
}
