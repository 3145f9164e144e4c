/**
 * The code as written against the code as documented, one job and one trade at a time. It computes the
 * taker's new fill count from a snapshot it never refreshes, and its trades are not undone when a
 * balance write is refused.
 */
module Agreement {
  import opened Exchange
  import opened Matching
  import opened Trades
  import opened Jobs

  /** How many trades a matching job executes. */
  function JobFills(db: Db, mode: Mode, id: nat): nat {
    if Matchable(db, id) then LoopEnd(db, mode, id).executed else 0
  }

  // ---- The stale fill count ----

  ghost predicate SameButTaker(stale: Db, carried: Db, takerId: nat) {
    && |stale.orders| == |carried.orders| && takerId < |stale.orders|
    && stale == carried.(orders := carried.orders[takerId := stale.orders[takerId]])
    && Terms(stale.orders[takerId]) == Terms(carried.orders[takerId])
  }

  /** The two loops side by side: apart from the taker's row they cannot be told apart. */
  ghost predicate Alike(stale: Progress, carried: Progress, takerId: nat, filled: nat, start: int) {
    && SameButTaker(stale.db, carried.db, takerId)
    && stale.remaining == carried.remaining <= start - carried.executed && stale.executed == carried.executed
    && carried.taker == stale.taker.(filled := carried.taker.filled)
    && stale.taker.filled == filled && filled + carried.executed <= carried.taker.filled
    && (carried.executed == 0 ==> stale == carried)
    && (carried.executed == 1 ==> stale.db == carried.db)
    && (carried.executed >= 1 ==> carried.db.orders[takerId].filled == carried.taker.filled)
    && (carried.executed >= 2 ==> stale.db.orders[takerId].filled < carried.db.orders[takerId].filled)
  }

  lemma AlikeAfterOne(
    stale: Progress, carried: Progress, atomic: bool, takerId: nat, makerId: nat, maker: Order, filled: nat, start: int)
    requires Alike(stale, carried, takerId, filled, start)
    requires makerId < |carried.db.orders| && makerId != takerId && carried.taker.pair < |carried.db.pairs|
    ensures Alike(MatchOne(stale, Mode(false, atomic), takerId, makerId, maker),
                  MatchOne(carried, Mode(true, atomic), takerId, makerId, maker), takerId, filled, start)
  {
  }

  lemma {:induction false} AlikeAfterLoop(
    stale: Progress, carried: Progress, atomic: bool, takerId: nat, snapshot: seq<Order>, ids: seq<nat>,
    filled: nat, start: int)
    requires LoopReady(stale, takerId, snapshot, ids) && LoopReady(carried, takerId, snapshot, ids)
    requires Alike(stale, carried, takerId, filled, start) && takerId !in ids
    ensures Alike(MatchLoop(stale, Mode(false, atomic), takerId, snapshot, ids),
                  MatchLoop(carried, Mode(true, atomic), takerId, snapshot, ids), takerId, filled, start)
    decreases |ids|
  {
    if ids != [] && carried.remaining != 0 {
      AlikeAfterOne(stale, carried, atomic, takerId, ids[0], snapshot[ids[0]], filled, start);
      AlikeAfterLoop(MatchOne(stale, Mode(false, atomic), takerId, ids[0], snapshot[ids[0]]),
                     MatchOne(carried, Mode(true, atomic), takerId, ids[0], snapshot[ids[0]]),
                     atomic, takerId, snapshot, ids[1..], filled, start);
    }
  }

  /**
   * The stale count changes nothing but the taker's filled_quantity, whatever the state, and it changes
   * that when the job executes two trades or more.
   */
  lemma StaleFillDiffers(db: Db, atomic: bool, id: nat)
    ensures JobFills(db, Mode(false, atomic), id) == JobFills(db, Mode(true, atomic), id)
    ensures MatchJob(db, Mode(false, atomic), id) == MatchJob(db, Mode(true, atomic), id)
       <==> JobFills(db, Mode(true, atomic), id) <= 1
    ensures id < |db.orders| ==>
      var stale, carried := MatchJob(db, Mode(false, atomic), id).db, MatchJob(db, Mode(true, atomic), id).db;
      && |stale.orders| == |carried.orders| == |db.orders|
      && stale == carried.(orders := carried.orders[id := carried.orders[id].(filled := stale.orders[id].filled)])
      && stale.orders[id].filled <= carried.orders[id].filled
  {
    if Matchable(db, id) {
      OpponentsReady(db, id);
      var p := LoopStart(db, id);
      var ids := Opponents(p.db, id);
      AlikeAfterLoop(p, p, atomic, id, p.db.orders, ids, p.taker.filled, p.remaining);
      var stale, carried := LoopEnd(db, Mode(false, atomic), id), LoopEnd(db, Mode(true, atomic), id);
      var quantity := db.orders[id].quantity;
      assert carried.executed >= 1 ==> carried.remaining < quantity;
      FinishAlike(stale, carried, id, quantity, p.taker.filled, p.remaining);
    } else if id < |db.orders| {
      var db' := MatchJob(db, Mode(true, atomic), id).db;
      assert db'.orders == db'.orders[id := db'.orders[id]];
    }
  }

  lemma FinishAlike(stale: Progress, carried: Progress, id: nat, quantity: nat, filled: nat, start: int)
    requires Alike(stale, carried, id, filled, start) && start <= quantity
    ensures
      var s, c := Finish(stale.db, id, quantity, stale.remaining), Finish(carried.db, id, quantity, carried.remaining);
      && s == c.(orders := c.orders[id := c.orders[id].(filled := s.orders[id].filled)])
      && (s == c <==> carried.executed <= 1)
      && s.orders[id].filled <= c.orders[id].filled
  {
    var s, c := Finish(stale.db, id, quantity, stale.remaining), Finish(carried.db, id, quantity, carried.remaining);
    assert s.orders[id].filled == stale.db.orders[id].filled;
    assert c.orders[id].filled == carried.db.orders[id].filled;
    if carried.executed >= 1 {
      assert s.orders[id] == c.orders[id].(filled := s.orders[id].filled);
    }
    assert s.orders == c.orders[id := c.orders[id].(filled := s.orders[id].filled)];
  }

  // ---- Trades that are not undone ----

  /** Whether a refused trade is undone shows exactly when its numbers are right and a balance is short. */
  lemma RollbackShowsIff(
    db: Db, carry: bool, takerId: nat, taker: Order, makerId: nat, maker: Order, quantity: int)
    requires takerId < |db.orders| && makerId < |db.orders| && taker.pair < |db.pairs|
    requires db.pairs[taker.pair].base != db.pairs[taker.pair].quote
    ensures ExecuteTrade(db, Mode(carry, false), takerId, taker, makerId, maker, quantity)
         != ExecuteTrade(db, Mode(carry, true), takerId, taker, makerId, maker, quantity)
       <==> && quantity > 0 && maker.price.Some? && maker.price.value > 0
            && !Covered(db.balances, db.pairs[taker.pair], Buyer(taker, maker).user, Seller(taker, maker).user,
                        quantity, maker.price.value)
  {
    TradeRefusedIff(db, Mode(carry, false), takerId, taker, makerId, maker, quantity);
    var written := ExecuteTrade(db, Mode(carry, false), takerId, taker, makerId, maker, quantity);
    if !written.ok && quantity > 0 && maker.price.Some? && maker.price.value > 0 {
      assert |written.db.trades| == |db.trades| + 1;
    }
  }
}
