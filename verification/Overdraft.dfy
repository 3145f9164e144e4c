/** Exactly when one step leaves a lock short: a trade at a price its buyer did not lock for, a late swap fault. */
module Overdraft {
  import opened Sums
  import opened Amounts
  import opened Ledger
  import opened Exchange
  import opened Matching
  import opened Trades
  import opened Solvency

  // ---- Trades ----

  /** The locked balances after the writes of a trade, up to the first that is refused. */
  lemma PartialTradeLocked(b: Balances, p: Pair, trade: Trade, a: Account)
    requires p.base != p.quote && trade.buyerFee == trade.sellerFee == Fee(trade.quantity, trade.price)
    ensures
      var quote := Quote(trade.quantity, trade.price);
      var before, left := Read(b, a).locked, Read(Post(b, TradeChanges(p, trade)).balances, a).locked;
      var sold := if a == Account(trade.seller, p.base) then trade.quantity else 0;
      var paid := if a == Account(trade.buyer, p.quote) then quote else 0;
      if trade.quantity > Read(b, Account(trade.seller, p.base)).locked then left == before
      else if quote > Read(b, Account(trade.buyer, p.quote)).locked then left == before - sold
      else left == before - sold - paid
  {
    var c := TradeChanges(p, trade);
    FourLocked(b, c[0], c[1], c[2], c[3], a);
    assert c == [c[0], c[1], c[2], c[3]];
    var b1 := Written(b, c[0]);
    var b2 := Written(b1, c[1]);
    if !Refused(b, c[0]) {
      assert Read(b2, c[2].account).locked == Read(b, c[2].account).locked;
    }
  }

  function LockedBy(x: Change, a: Account): int {
    if x.account == a then x.locked else 0
  }

  lemma FourLocked(b: Balances, x: Change, y: Change, z: Change, w: Change, a: Account)
    requires y.locked == 0 && w.locked == 0
    ensures
      var b1 := Written(b, x);
      var b2 := Written(b1, y);
      Read(Post(b, [x, y, z, w]).balances, a).locked == Read(b, a).locked
        + if Refused(b, x) then 0
          else if Refused(b1, y) || Refused(b2, z) then LockedBy(x, a)
          else LockedBy(x, a) + LockedBy(z, a)
  {
    var b1 := Written(b, x);
    var b2 := Written(b1, y);
    var b3 := Written(b2, z);
    PostsFour(b, x, y, z, w);
    WrittenLocked(b, x, a);
    WrittenLocked(b1, y, a);
    WrittenLocked(b2, z, a);
    WrittenLocked(b3, w, a);
  }

  lemma WrittenLocked(b: Balances, x: Change, a: Account)
    ensures !Refused(b, x) ==> Read(Written(b, x), a).locked == Read(b, a).locked + LockedBy(x, a)
  {
  }

  /** What one attempted trade must find: slack for what it overpays, or for what it takes and does not finish. */
  ghost predicate TradeAbsorbed(db: Db, mode: Mode, taker: Order, maker: Order, quantity: int)
    requires taker.pair < |db.pairs| && quantity <= Remaining(Buyer(taker, maker)) && Buyer(taker, maker).price.Some?
  {
    var p, buyer, seller := db.pairs[taker.pair], Buyer(taker, maker), Seller(taker, maker);
    var inBase, inQuote := Account(seller.user, p.base), Account(buyer.user, p.quote);
    if quantity <= 0 || maker.price.None? || maker.price.value == 0 then true
    else
      var price := maker.price.value;
      if Covered(db.balances, p, buyer.user, seller.user, quantity, price)
      then Slack(db, inQuote) + BuyerGain(buyer, quantity, price) >= 0
      else if mode.atomicTrade || quantity > Read(db.balances, inBase).locked then true
      else
        && Slack(db, inBase) >= quantity
        && (Quote(quantity, price) <= Read(db.balances, inQuote).locked
            ==> Slack(db, inQuote) >= Quote(quantity, price))
  }

  /**
   * An attempted trade keeps a solvent exchange solvent exactly when its gain on the buyer's lock, or
   * the writes of a refused trade that nothing undoes, find slack to absorb them.
   */
  lemma TradeKeepsSolventIff(
    db: Db, mode: Mode, takerId: nat, taker: Order, makerId: nat, maker: Order, quantity: int)
    requires Solvent(db) && Selected(db, takerId, taker, makerId, maker, quantity)
    requires Buyer(taker, maker).price.Some? && db.pairs[taker.pair].base != db.pairs[taker.pair].quote
    ensures Solvent(ExecuteTrade(db, mode, takerId, taker, makerId, maker, quantity).db)
       <==> TradeAbsorbed(db, mode, taker, maker, quantity)
  {
    var r := ExecuteTrade(db, mode, takerId, taker, makerId, maker, quantity);
    TradeRefusedIff(db, mode, takerId, taker, makerId, maker, quantity);
    if r.ok {
      OkTradeSolventIff(db, mode, takerId, taker, makerId, maker, quantity);
    } else if !mode.atomicTrade && quantity > 0 && maker.price.Some? && maker.price.value > 0 {
      RefusedTradeSolventIff(db, mode.carryFill, takerId, taker, makerId, maker, quantity);
    }
  }

  lemma OkTradeSolventIff(
    db: Db, mode: Mode, takerId: nat, taker: Order, makerId: nat, maker: Order, quantity: int)
    requires Solvent(db) && Selected(db, takerId, taker, makerId, maker, quantity) && Buyer(taker, maker).price.Some?
    requires ExecuteTrade(db, mode, takerId, taker, makerId, maker, quantity).ok
    ensures Solvent(ExecuteTrade(db, mode, takerId, taker, makerId, maker, quantity).db)
       <==> Slack(db, Account(Buyer(taker, maker).user, db.pairs[taker.pair].quote))
              + BuyerGain(Buyer(taker, maker), quantity, maker.price.value) >= 0
  {
    var db' := ExecuteTrade(db, mode, takerId, taker, makerId, maker, quantity).db;
    forall a: Account
      ensures Slack(db, a) >= 0
      ensures Slack(db', a) == Slack(db, a)
                + (if a == Account(Buyer(taker, maker).user, db.pairs[taker.pair].quote)
                   then BuyerGain(Buyer(taker, maker), quantity, maker.price.value) else 0)
    {
      TradeSlack(db, mode, takerId, taker, makerId, maker, quantity, a);
    }
  }

  lemma RefusedTradeSolventIff(
    db: Db, carry: bool, takerId: nat, taker: Order, makerId: nat, maker: Order, quantity: nat)
    requires Solvent(db) && Selected(db, takerId, taker, makerId, maker, quantity) && quantity > 0
    requires maker.price.Some? && maker.price.value > 0 && db.pairs[taker.pair].base != db.pairs[taker.pair].quote
    requires !ExecuteTrade(db, Mode(carry, false), takerId, taker, makerId, maker, quantity).ok
    ensures
      var p, price := db.pairs[taker.pair], maker.price.value;
      var inBase := Account(Seller(taker, maker).user, p.base);
      var inQuote := Account(Buyer(taker, maker).user, p.quote);
      Solvent(ExecuteTrade(db, Mode(carry, false), takerId, taker, makerId, maker, quantity).db)
      <==> || quantity > Read(db.balances, inBase).locked
           || (&& Slack(db, inBase) >= quantity
               && (Quote(quantity, price) <= Read(db.balances, inQuote).locked
                   ==> Slack(db, inQuote) >= Quote(quantity, price)))
  {
    var p, price := db.pairs[taker.pair], maker.price.value;
    var trade := TradeRow(takerId, taker, makerId, maker, price, quantity);
    var db' := ExecuteTrade(db, Mode(carry, false), takerId, taker, makerId, maker, quantity).db;
    forall a: Account
      ensures Slack(db, a) >= 0
      ensures Slack(db', a) == Slack(db, a)
                + Read(Post(db.balances, TradeChanges(p, trade)).balances, a).locked - Read(db.balances, a).locked
    {
      assert Owed(db', a) == Owed(db, a);
    }
    forall a: Account { PartialTradeLocked(db.balances, p, trade, a); }
    var inBase := Account(Seller(taker, maker).user, p.base);
    var inQuote := Account(Buyer(taker, maker).user, p.quote);
    assert Slack(db', inBase) == Slack(db', inBase) && Slack(db', inQuote) == Slack(db', inQuote);
  }

  // ---- Swap attempts that fail after completing ----

  /** Where the next attempt, or the unlock of a last one, may find what the fault has already spent. */
  ghost predicate LateFaultAbsorbed(db: Db, id: nat, attemptsMade: nat, maxAttempts: nat)
    requires id < |db.swaps|
  {
    var amount, source := db.swaps[id].sourceAmount, Account(db.swaps[id].user, db.swaps[id].source);
    || Slack(db, source) >= amount
    || (attemptsMade + 1 >= maxAttempts && Read(db.balances, source).locked < 2 * amount)
  }

  lemma SwapHasLocked(db: Db, id: nat)
    requires Solvent(db) && id < |db.swaps| && Unfinished(db.swaps[id].status)
    ensures
      var s := db.swaps[id];
      var source := Account(s.user, s.source);
      && s.sourceAmount <= Read(db.balances, source).locked && Settle(db.balances, s).Some?
      && (forall a: Account :: Read(Settle(db.balances, s).value, a).locked
                               == Read(db.balances, a).locked - (if a == source then s.sourceAmount else 0))
  {
    var s := db.swaps[id];
    var source := Account(s.user, s.source);
    SumMember(db.swaps, SwapDebt(source), id);
    SumNonNegative(db.orders, OrderDebt(db.pairs, source));
    assert Slack(db, source) >= 0;
  }

  /** What a fault after completion does to every account's slack. */
  lemma LateFaultSlack(db: Db, id: nat, attemptsMade: nat, maxAttempts: nat, a: Account)
    requires Solvent(db) && id < |db.swaps| && Unfinished(db.swaps[id].status)
    ensures
      var s := db.swaps[id];
      var source := Account(s.user, s.source);
      Slack(SwapAttempt(db, id, attemptsMade, maxAttempts, FailsAfterwards).db, a) == Slack(db, a)
        - (if a != source || (attemptsMade + 1 >= maxAttempts && Read(db.balances, source).locked < 2 * s.sourceAmount)
           then 0 else s.sourceAmount)
  {
    SwapHasLocked(db, id);
    var s := db.swaps[id];
    SumUpdate(db.swaps, id, s.(status := Queued), SwapDebt(a));
    SumUpdate(db.swaps, id, s.(status := Failed), SwapDebt(a));
    var db' := SwapAttempt(db, id, attemptsMade, maxAttempts, FailsAfterwards).db;
    var last := attemptsMade + 1 >= maxAttempts;
    assert db'.swaps == db.swaps[id := s.(status := if last then Failed else Queued)];
    assert Owed(db', a) == Owed(db, a) - (if last then SwapDebt(a)(s) else 0);
  }

  lemma LateFaultKeepsBooks(db: Db, id: nat, attemptsMade: nat, maxAttempts: nat)
    requires Books(db) && Solvent(db) && id < |db.swaps| && Unfinished(db.swaps[id].status)
    ensures Books(SwapAttempt(db, id, attemptsMade, maxAttempts, FailsAfterwards).db)
  {
    SwapHasLocked(db, id);
    var s, db' := db.swaps[id], SwapAttempt(db, id, attemptsMade, maxAttempts, FailsAfterwards).db;
    assert db'.swaps == db.swaps[id := s.(status := if attemptsMade + 1 >= maxAttempts then Failed else Queued)];
  }

  /** A sound exchange survives the fault exactly when other slack of the account absorbs a second claim on the lock. */
  lemma LateFaultSoundIff(db: Db, id: nat, attemptsMade: nat, maxAttempts: nat)
    requires Sound(db) && id < |db.swaps| && Unfinished(db.swaps[id].status)
    ensures Sound(SwapAttempt(db, id, attemptsMade, maxAttempts, FailsAfterwards).db)
       <==> LateFaultAbsorbed(db, id, attemptsMade, maxAttempts)
  {
    var db' := SwapAttempt(db, id, attemptsMade, maxAttempts, FailsAfterwards).db;
    var s := db.swaps[id];
    var source := Account(s.user, s.source);
    LateFaultKeepsBooks(db, id, attemptsMade, maxAttempts);
    forall a: Account
      ensures Slack(db, a) >= 0
      ensures Slack(db', a) == Slack(db, a)
        - (if a != source || (attemptsMade + 1 >= maxAttempts && Read(db.balances, source).locked < 2 * s.sourceAmount)
           then 0 else s.sourceAmount)
    {
      LateFaultSlack(db, id, attemptsMade, maxAttempts, a);
    }
    assert Slack(db, source) >= 0;
  }
}
