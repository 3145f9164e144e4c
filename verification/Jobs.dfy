/** What the matching loop maintains from one turn to the next, and that a whole job keeps the exchange sound. */
module Jobs {
  import opened Sums
  import opened Amounts
  import opened Ledger
  import opened Exchange
  import opened Matching
  import opened OrderBook
  import opened Trades
  import opened Solvency

  /** The account that an order locked from. */
  function FundedBy(pairs: seq<Pair>, o: Order): Account
    requires o.pair < |pairs|
  {
    Account(o.user, LockedToken(pairs[o.pair], o.side))
  }

  /** Every account is solvent, but perhaps the one that a BUY taker pays from. */
  ghost predicate SolventBesides(db: Db, taker: Order)
    requires taker.pair < |db.pairs|
  {
    forall a: Account :: Slack(db, a) >= 0 || (taker.side == Buy && a == FundedBy(db.pairs, taker))
  }

  /** The taker is untouched or carried along; the makers still to come are as they were fetched. */
  ghost predicate LoopInv(p: Progress, takerId: nat, snapshot: seq<Order>, ids: seq<nat>) {
    && LoopReady(p, takerId, snapshot, ids)
    && Books(p.db) && SolventBesides(p.db, p.taker)
    && Snapshot(p.db.orders[takerId], p.taker) && p.remaining == Remaining(p.taker)
    && (p.remaining != 0 ==> Resting(p.db.orders[takerId].status))
    && Distinct(ids) && takerId !in ids
    && forall i :: 0 <= i < |ids| ==> MakerUntouched(p, snapshot, ids[i])
  }

  ghost predicate MakerUntouched(p: Progress, snapshot: seq<Order>, id: nat) {
    && id < |p.db.orders| && id < |snapshot|
    && p.db.orders[id] == snapshot[id] && Resting(snapshot[id].status)
    && snapshot[id].pair == p.taker.pair && snapshot[id].side == Opposite(p.taker.side)
  }

  lemma TradeFrame(db: Db, mode: Mode, takerId: nat, taker: Order, makerId: nat, maker: Order, quantity: int)
    requires takerId < |db.orders| && makerId < |db.orders| && taker.pair < |db.pairs|
    ensures
      var r := ExecuteTrade(db, mode, takerId, taker, makerId, maker, quantity);
      && r.db.pairs == db.pairs && r.db.swaps == db.swaps && |r.db.orders| == |db.orders|
      && (forall i :: 0 <= i < |db.orders| && i != takerId && i != makerId ==> r.db.orders[i] == db.orders[i])
      && (forall i :: 0 <= i < |db.orders| ==> Terms(r.db.orders[i]) == Terms(db.orders[i]))
      && (!r.ok ==> r.db.orders == db.orders)
  {
  }

  /** An order without the two columns that matching writes. */
  function Terms(o: Order): Order {
    o.(status := Open, filled := 0)
  }

  lemma SameTerms(a: Order, b: Order)
    requires Terms(a) == Terms(b)
    ensures a.user == b.user && a.pair == b.pair && a.side == b.side && a.kind == b.kind && a.price == b.price
    ensures a.quantity == b.quantity
  {
    assert Terms(a).user == a.user && Terms(a).pair == a.pair && Terms(a).side == a.side;
    assert Terms(a).kind == a.kind && Terms(a).price == a.price && Terms(a).quantity == a.quantity;
    assert Terms(b).user == b.user && Terms(b).pair == b.pair && Terms(b).side == b.side;
    assert Terms(b).kind == b.kind && Terms(b).price == b.price && Terms(b).quantity == b.quantity;
  }

  /** Whatever the mode and the state, the loop writes only fills and statuses, and only of its own orders. */
  lemma {:induction false} LoopFrame(p: Progress, mode: Mode, takerId: nat, snapshot: seq<Order>, ids: seq<nat>)
    requires LoopReady(p, takerId, snapshot, ids)
    ensures
      var db' := MatchLoop(p, mode, takerId, snapshot, ids).db;
      && (forall i :: 0 <= i < |p.db.orders| && i != takerId && i !in ids ==> db'.orders[i] == p.db.orders[i])
      && (forall i :: 0 <= i < |p.db.orders| ==> Terms(db'.orders[i]) == Terms(p.db.orders[i]))
      && db'.swaps == p.db.swaps
    decreases |ids|
  {
    if ids != [] && p.remaining != 0 {
      var maker := snapshot[ids[0]];
      TradeFrame(p.db, mode, takerId, p.taker, ids[0], maker, Min(p.remaining, Remaining(maker)));
      LoopFrame(MatchOne(p, mode, takerId, ids[0], maker), mode, takerId, snapshot, ids[1..]);
    }
  }

  lemma CappedByTerms(db: Db, db': Db)
    requires Capped(db) && db'.pairs == db.pairs && |db'.orders| == |db.orders|
    requires forall i :: 0 <= i < |db.orders| ==> Terms(db'.orders[i]) == Terms(db.orders[i])
    ensures Capped(db')
  {
    forall i | 0 <= i < |db'.orders| && db'.orders[i].price.Some?
      ensures 0 < db'.orders[i].price.value <= FEE_SAFE_PRICE
    {
      assert Terms(db'.orders[i]) == Terms(db.orders[i]);
      assert db'.orders[i].price == Terms(db'.orders[i]).price;
      assert db.orders[i].price == Terms(db.orders[i]).price;
    }
  }

  lemma SelectedInLoop(p: Progress, takerId: nat, snapshot: seq<Order>, ids: seq<nat>)
    requires LoopInv(p, takerId, snapshot, ids) && ids != [] && p.remaining != 0
    ensures ids[0] < |p.db.orders| && ids[0] < |snapshot| && ids[0] != takerId
    ensures Min(p.remaining, Remaining(snapshot[ids[0]])) > 0
    ensures Selected(p.db, takerId, p.taker, ids[0], snapshot[ids[0]],
                     Min(p.remaining, Remaining(snapshot[ids[0]])))
  {
    assert MakerUntouched(p, snapshot, ids[0]);
    assert OrderOk(p.db.pairs, p.db.orders[ids[0]]) && OrderOk(p.db.pairs, p.db.orders[takerId]);
  }

  lemma MatchOneKeepsCapped(p: Progress, mode: Mode, takerId: nat, makerId: nat, maker: Order)
    requires takerId < |p.db.orders| && makerId < |p.db.orders| && p.taker.pair < |p.db.pairs| && Capped(p.db)
    ensures Capped(MatchOne(p, mode, takerId, makerId, maker).db)
  {
    TradeFrame(p.db, mode, takerId, p.taker, makerId, maker, Min(p.remaining, Remaining(maker)));
    CappedByTerms(p.db, MatchOne(p, mode, takerId, makerId, maker).db);
  }

  /** The makers still to come are not touched. */
  lemma MatchOneKeepsMakers(p: Progress, mode: Mode, takerId: nat, snapshot: seq<Order>, ids: seq<nat>)
    requires LoopInv(p, takerId, snapshot, ids) && ids != []
    ensures forall i :: 0 <= i < |ids[1..]| ==>
              MakerUntouched(MatchOne(p, mode, takerId, ids[0], snapshot[ids[0]]), snapshot, ids[1..][i])
  {
    var maker := snapshot[ids[0]];
    TradeFrame(p.db, mode, takerId, p.taker, ids[0], maker, Min(p.remaining, Remaining(maker)));
    var p' := MatchOne(p, mode, takerId, ids[0], maker);
    forall i | 0 <= i < |ids[1..]| ensures MakerUntouched(p', snapshot, ids[1..][i]) {
      assert MakerUntouched(p, snapshot, ids[i + 1]);
    }
  }

  /** The carried snapshot of the taker stays its row's. */
  lemma MatchOneKeepsTaker(p: Progress, mode: Mode, takerId: nat, makerId: nat, maker: Order)
    requires takerId < |p.db.orders| && makerId < |p.db.orders| && p.taker.pair < |p.db.pairs| && takerId != makerId
    requires Snapshot(p.db.orders[takerId], p.taker) && p.remaining == Remaining(p.taker) && mode.carryFill
    requires p.remaining != 0 && Resting(p.db.orders[takerId].status)
    ensures
      var p' := MatchOne(p, mode, takerId, makerId, maker);
      && Snapshot(p'.db.orders[takerId], p'.taker) && p'.remaining == Remaining(p'.taker)
      && (p'.remaining != 0 ==> Resting(p'.db.orders[takerId].status))
  {
  }

  /** The turn leaves no half-written trade: there is none to refuse, it is undone, or it is executed. */
  predicate Clean(p: Progress, mode: Mode, takerId: nat, makerId: nat, maker: Order)
    requires takerId < |p.db.orders| && makerId < |p.db.orders| && p.taker.pair < |p.db.pairs|
  {
    var p' := MatchOne(p, mode, takerId, makerId, maker);
    p'.db == p.db || p'.executed > p.executed
  }

  lemma AtomicIsClean(p: Progress, mode: Mode, takerId: nat, makerId: nat, maker: Order)
    requires takerId < |p.db.orders| && makerId < |p.db.orders| && p.taker.pair < |p.db.pairs| && mode.atomicTrade
    ensures Clean(p, mode, takerId, makerId, maker)
  {
  }

  lemma CappedIsClean(p: Progress, mode: Mode, takerId: nat, snapshot: seq<Order>, ids: seq<nat>)
    requires LoopInv(p, takerId, snapshot, ids) && Solvent(p.db) && Capped(p.db) && ids != [] && p.remaining != 0
    requires !MarketBuy(p.taker)
    ensures Clean(p, mode, takerId, ids[0], snapshot[ids[0]])
  {
    var maker := snapshot[ids[0]];
    SelectedInLoop(p, takerId, snapshot, ids);
    if CanMatch(p.taker, maker) && maker.price.Some? && maker.price.value > 0 {
      TradeNotRefused(p.db, mode, takerId, p.taker, ids[0], maker, Min(p.remaining, Remaining(maker)));
    }
  }

  /** What the buyer of a turn gains or loses on its lock. */
  ghost predicate TurnGain(p: Progress, p': Progress, maker: Order, gain: int) {
    var buyer := Buyer(p.taker, maker);
    && buyer.price.Some? && p.taker.pair == maker.pair
    && if p'.executed == p.executed then gain == 0
       else && maker.price.Some? && 0 <= p.remaining - p'.remaining <= Remaining(buyer)
            && gain == BuyerGain(buyer, p.remaining - p'.remaining, maker.price.value)
  }

  /** Only a MARKET BUY taker may lose. */
  lemma MatchOneGain(p: Progress, mode: Mode, takerId: nat, snapshot: seq<Order>, ids: seq<nat>) returns (gain: int)
    requires LoopInv(p, takerId, snapshot, ids) && ids != [] && p.remaining != 0
    ensures TurnGain(p, MatchOne(p, mode, takerId, ids[0], snapshot[ids[0]]), snapshot[ids[0]], gain)
    ensures !MarketBuy(p.taker) ==> gain >= 0
  {
    var maker := snapshot[ids[0]];
    var buyer := Buyer(p.taker, maker);
    SelectedInLoop(p, takerId, snapshot, ids);
    assert OrderOk(p.db.pairs, p.db.orders[takerId]) && OrderOk(p.db.pairs, p.db.orders[ids[0]]);
    gain := 0;
    if MatchOne(p, mode, takerId, ids[0], maker).executed > p.executed {
      var quantity := Min(p.remaining, Remaining(maker));
      gain := BuyerGain(buyer, quantity, maker.price.value);
      if !MarketBuy(p.taker) {
        PriceAccepted(p.taker, maker);
        BuyerGainNonNegative(buyer, quantity, maker.price.value);
      }
    }
  }

  /** What a turn does to the slack of every account. */
  lemma MatchOneSlack(
    p: Progress, mode: Mode, takerId: nat, snapshot: seq<Order>, ids: seq<nat>, gain: int, a: Account)
    requires LoopInv(p, takerId, snapshot, ids) && ids != [] && p.remaining != 0
    requires Clean(p, mode, takerId, ids[0], snapshot[ids[0]])
    requires TurnGain(p, MatchOne(p, mode, takerId, ids[0], snapshot[ids[0]]), snapshot[ids[0]], gain)
    ensures Slack(MatchOne(p, mode, takerId, ids[0], snapshot[ids[0]]).db, a) == Slack(p.db, a)
              + (if a == Account(Buyer(p.taker, snapshot[ids[0]]).user, p.db.pairs[p.taker.pair].quote)
                 then gain else 0)
  {
    var maker := snapshot[ids[0]];
    SelectedInLoop(p, takerId, snapshot, ids);
    if MatchOne(p, mode, takerId, ids[0], maker).executed > p.executed {
      TradeSlack(p.db, mode, takerId, p.taker, ids[0], maker, Min(p.remaining, Remaining(maker)), a);
    }
  }

  lemma MatchOneKeepsBooks(p: Progress, mode: Mode, takerId: nat, snapshot: seq<Order>, ids: seq<nat>)
    requires LoopInv(p, takerId, snapshot, ids) && ids != [] && p.remaining != 0
    requires Clean(p, mode, takerId, ids[0], snapshot[ids[0]])
    ensures Books(MatchOne(p, mode, takerId, ids[0], snapshot[ids[0]]).db)
  {
    var maker := snapshot[ids[0]];
    SelectedInLoop(p, takerId, snapshot, ids);
    if MatchOne(p, mode, takerId, ids[0], maker).executed > p.executed {
      TradeKeepsBooks(p.db, mode, takerId, p.taker, ids[0], maker, Min(p.remaining, Remaining(maker)));
    }
  }

  /** A SELL taker trades at its makers' own prices; a BUY taker only touches its own account. */
  lemma MatchOneKeepsOthersSolvent(p: Progress, mode: Mode, takerId: nat, snapshot: seq<Order>, ids: seq<nat>)
    requires LoopInv(p, takerId, snapshot, ids) && ids != [] && p.remaining != 0
    requires Clean(p, mode, takerId, ids[0], snapshot[ids[0]])
    ensures
      var p' := MatchOne(p, mode, takerId, ids[0], snapshot[ids[0]]);
      p'.taker.pair < |p'.db.pairs| && SolventBesides(p'.db, p'.taker)
    ensures Solvent(p.db) && !MarketBuy(p.taker) ==> Solvent(MatchOne(p, mode, takerId, ids[0], snapshot[ids[0]]).db)
  {
    var maker := snapshot[ids[0]];
    var p' := MatchOne(p, mode, takerId, ids[0], maker);
    var gain := MatchOneGain(p, mode, takerId, snapshot, ids);
    forall a: Account
      ensures Slack(p.db, a) >= 0 || (p.taker.side == Buy && a == FundedBy(p.db.pairs, p.taker))
      ensures Slack(p'.db, a) >= Slack(p.db, a) || (MarketBuy(p.taker) && a == FundedBy(p.db.pairs, p.taker))
    {
      MatchOneSlack(p, mode, takerId, snapshot, ids, gain, a);
    }
  }

  lemma MatchOneKeeps(p: Progress, mode: Mode, takerId: nat, snapshot: seq<Order>, ids: seq<nat>)
    requires LoopInv(p, takerId, snapshot, ids) && ids != [] && p.remaining != 0 && mode.carryFill
    requires Clean(p, mode, takerId, ids[0], snapshot[ids[0]])
    ensures LoopInv(MatchOne(p, mode, takerId, ids[0], snapshot[ids[0]]), takerId, snapshot, ids[1..])
    ensures Capped(p.db) ==> Capped(MatchOne(p, mode, takerId, ids[0], snapshot[ids[0]]).db)
    ensures Solvent(p.db) && !MarketBuy(p.taker) ==> Solvent(MatchOne(p, mode, takerId, ids[0], snapshot[ids[0]]).db)
  {
    var makerId, maker := ids[0], snapshot[ids[0]];
    SelectedInLoop(p, takerId, snapshot, ids);
    MatchOneKeepsTaker(p, mode, takerId, makerId, maker);
    MatchOneKeepsMakers(p, mode, takerId, snapshot, ids);
    if Capped(p.db) {
      MatchOneKeepsCapped(p, mode, takerId, makerId, maker);
    }
    MatchOneKeepsBooks(p, mode, takerId, snapshot, ids);
    MatchOneKeepsOthersSolvent(p, mode, takerId, snapshot, ids);
  }

  /** Any taker but a MARKET BUY keeps the exchange sound through the loop. */
  lemma {:induction false} LoopKeepsSound(p: Progress, mode: Mode, takerId: nat, snapshot: seq<Order>, ids: seq<nat>)
    requires LoopInv(p, takerId, snapshot, ids) && Solvent(p.db) && !MarketBuy(p.taker)
    requires mode.carryFill && (mode.atomicTrade || Capped(p.db))
    ensures
      var p' := MatchLoop(p, mode, takerId, snapshot, ids);
      LoopInv(p', takerId, snapshot, []) && Solvent(p'.db) && (Capped(p.db) ==> Capped(p'.db))
    decreases |ids|
  {
    if ids != [] && p.remaining != 0 {
      var maker := snapshot[ids[0]];
      if mode.atomicTrade {
        AtomicIsClean(p, mode, takerId, ids[0], maker);
      } else {
        CappedIsClean(p, mode, takerId, snapshot, ids);
      }
      MatchOneKeeps(p, mode, takerId, snapshot, ids);
      LoopKeepsSound(MatchOne(p, mode, takerId, ids[0], maker), mode, takerId, snapshot, ids[1..]);
    }
  }

  lemma StatusKeepsBooks(db: Db, id: nat, status: OrderStatus)
    requires Books(db) && id < |db.orders| && OrderOk(db.pairs, db.orders[id].(status := status))
    ensures Books(db.(orders := SetStatus(db.orders, id, status)))
    ensures Capped(db) ==> Capped(db.(orders := SetStatus(db.orders, id, status)))
  {
    var db' := db.(orders := SetStatus(db.orders, id, status));
    TradesStayOk(db.orders, db'.orders, db.trades);
    assert forall i :: 0 <= i < |db.orders| && i != id ==> db'.orders[i] == db.orders[i];
  }

  /** Changing a live order's status keeps the exchange sound when the new row is allowed. */
  lemma StatusKeepsSound(db: Db, id: nat, status: OrderStatus)
    requires Sound(db) && id < |db.orders| && Live(db.orders[id].status)
    requires OrderOk(db.pairs, db.orders[id].(status := status))
    ensures Sound(db.(orders := SetStatus(db.orders, id, status)))
    ensures Capped(db) ==> Capped(db.(orders := SetStatus(db.orders, id, status)))
  {
    StatusKeepsBooks(db, id, status);
    forall a: Account ensures Slack(db.(orders := SetStatus(db.orders, id, status)), a) >= 0 {
      assert Slack(db, a) >= 0;
      OwedAfterStatus(db, id, status, a);
    }
  }

  lemma OwedAfterStatus(db: Db, id: nat, status: OrderStatus, a: Account)
    requires id < |db.orders| && Live(db.orders[id].status)
    ensures Owed(db.(orders := SetStatus(db.orders, id, status)), a) == Owed(db, a)
      - (if !Live(status) && Owes(db.pairs, db.orders[id], a) then DebtAmount(db.orders[id]) else 0)
  {
    var row := db.orders[id];
    SumUpdate(db.orders, id, row.(status := status), OrderDebt(db.pairs, a));
    assert DebtAmount(row.(status := status)) == DebtAmount(row);
  }

  lemma OpponentsReady(db: Db, id: nat)
    requires Matchable(db, id)
    ensures var p := LoopStart(db, id);
            id !in Opponents(p.db, id) && LoopReady(p, id, p.db.orders, Opponents(p.db, id))
  {
    var p := LoopStart(db, id);
    FetchSpec(p.db.orders, p.db.orders[id].pair, Opposite(p.db.orders[id].side));
  }

  lemma LoopStartInv(db: Db, id: nat)
    requires Sound(db) && Matchable(db, id)
    ensures var p := LoopStart(db, id);
            LoopInv(p, id, p.db.orders, Opponents(p.db, id)) && Sound(p.db) && p.remaining > 0
    ensures Capped(db) ==> Capped(LoopStart(db, id).db)
  {
    assert OrderOk(db.pairs, db.orders[id]);
    if db.orders[id].status == PendingMatch {
      StatusKeepsSound(db, id, Open);
    }
    var p := LoopStart(db, id);
    FetchSpec(p.db.orders, p.taker.pair, Opposite(p.taker.side));
    var ids := Opponents(p.db, id);
    forall i | 0 <= i < |ids| ensures MakerUntouched(p, p.db.orders, ids[i]) {
      assert ids[i] in ids;
    }
  }

  /** What the status writes around the loop leave of soundness, account by account. */
  lemma FinishKeeps(db: Db, id: nat, quantity: nat, remaining: int)
    requires Books(db) && id < |db.orders| && (remaining == 0 <==> db.orders[id].status == Filled)
    requires remaining != 0 ==> Resting(db.orders[id].status)
    requires remaining != 0 && remaining < quantity ==> OrderOk(db.pairs, db.orders[id].(status := Partial))
    ensures
      var db' := Finish(db, id, quantity, remaining);
      Books(db') && (Capped(db) ==> Capped(db')) && forall a: Account :: Slack(db', a) == Slack(db, a)
  {
    if remaining == 0 {
      assert SetStatus(db.orders, id, Filled) == db.orders;
    } else if remaining < quantity {
      StatusKeepsBooks(db, id, Partial);
      forall a: Account { OwedAfterStatus(db, id, Partial, a); }
    }
  }

  /** A matching job of anything but a MARKET BUY keeps the exchange sound. */
  lemma JobKeepsSound(db: Db, mode: Mode, id: nat)
    requires Sound(db) && mode.carryFill && (mode.atomicTrade || Capped(db))
    requires Matchable(db, id) ==> !MarketBuy(db.orders[id])
    ensures Sound(MatchJob(db, mode, id).db)
    ensures Capped(db) ==> Capped(MatchJob(db, mode, id).db)
  {
    if Matchable(db, id) {
      LoopStartInv(db, id);
      var p := LoopStart(db, id);
      LoopKeepsSound(p, mode, id, p.db.orders, Opponents(p.db, id));
      var q := LoopEnd(db, mode, id);
      assert OrderOk(q.db.pairs, q.db.orders[id]);
      FinishKeeps(q.db, id, db.orders[id].quantity, q.remaining);
    } else {
      IdleJobKeepsSound(db, mode, id);
    }
  }

  /** A job that matches nothing: no such order, a finished one, or an inactive pair. In any mode. */
  lemma IdleJobKeepsSound(db: Db, mode: Mode, id: nat)
    requires Sound(db) && !Matchable(db, id)
    ensures Sound(MatchJob(db, mode, id).db)
    ensures Capped(db) ==> Capped(MatchJob(db, mode, id).db)
  {
    if id < |db.orders| && Live(db.orders[id].status) {
      assert OrderOk(db.pairs, db.orders[id]);
      StatusKeepsSound(db, id, Cancelled);
    }
  }
}
