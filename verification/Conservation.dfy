/**
 * Exact conservation: what accounts hold, plus fees taken, plus what completed swaps moved out, changes
 * only by what refused trades and late swap faults leak, to the unit.
 */
module Conservation {
  import opened Sums
  import opened Amounts
  import opened Ledger
  import opened Exchange
  import opened Matching
  import opened Trades
  import opened Solvency
  import opened Runs

  /** The buyer's fee is taken in base, the seller's in quote. */
  function FeesIn(pairs: seq<Pair>, t: TokenId): Trade -> int {
    (trade: Trade) =>
      if trade.pair >= |pairs| then 0
      else (if pairs[trade.pair].base == t then trade.buyerFee else 0)
           + (if pairs[trade.pair].quote == t then trade.sellerFee else 0)
  }

  /** What a completed swap took out of a token, less what it brought in. */
  function SwapOutflow(t: TokenId): Swap -> int {
    (s: Swap) =>
      if s.status != Completed then 0
      else (if s.source == t then s.sourceAmount else 0) - (if s.target == t then s.targetAmount else 0)
  }

  ghost function Wealth(db: Db, t: TokenId): int {
    Supply(db.balances, t) + Sum(db.trades, FeesIn(db.pairs, t)) + Sum(db.swaps, SwapOutflow(t))
  }

  lemma LockKeepsSupply(b: Balances, a: Account, amount: nat, t: TokenId)
    ensures Lock(b, a, amount).Some? ==> Supply(Lock(b, a, amount).value, t) == Supply(b, t)
    ensures Unlock(b, a, amount).Some? ==> Supply(Unlock(b, a, amount).value, t) == Supply(b, t)
  {
    if Lock(b, a, amount).Some? {
      SupplyAfterWrite(b, t, a, Balance(b[a].available - amount, b[a].locked + amount));
    }
    if Unlock(b, a, amount).Some? {
      SupplyAfterWrite(b, t, a, Balance(b[a].available + amount, b[a].locked - amount));
    }
  }

  // ---- Trades ----

  /** With rollback, a trade moves nothing but its two fees out of the accounts. */
  lemma TradeConserves(
    db: Db, mode: Mode, takerId: nat, taker: Order, makerId: nat, maker: Order, quantity: int, t: TokenId)
    requires takerId < |db.orders| && makerId < |db.orders| && taker.pair < |db.pairs|
    requires mode.atomicTrade
    ensures var r := ExecuteTrade(db, mode, takerId, taker, makerId, maker, quantity);
            Wealth(r.db, t) == Wealth(db, t)
  {
    var r := ExecuteTrade(db, mode, takerId, taker, makerId, maker, quantity);
    if r.ok {
      var trade := TradeRow(takerId, taker, makerId, maker, maker.price.value, quantity);
      var c := TradeChanges(db.pairs[taker.pair], trade);
      PostMovesSupply(db.balances, c, t);
      FourNets(c[0], c[1], c[2], c[3], Account(0, t));
      SumAppend(db.trades, trade, FeesIn(db.pairs, t));
    }
  }

  // ---- Trades that are not undone ----

  /** The supply of a token after the balance writes of a trade, up to the first that is refused. */
  lemma PartialTradeSupply(b: Balances, p: Pair, trade: Trade, t: TokenId)
    requires p.base != p.quote && trade.buyerFee == trade.sellerFee == Fee(trade.quantity, trade.price)
    ensures
      var quote, fee := Quote(trade.quantity, trade.price), Fee(trade.quantity, trade.price);
      var left := Supply(Post(b, TradeChanges(p, trade)).balances, t);
      if trade.quantity > Read(b, Account(trade.seller, p.base)).locked then left == Supply(b, t)
      else
        var two := Supply(b, t) - (if t == p.base then trade.quantity else 0)
                   + (if t == p.quote then quote - fee else 0);
        if quote > Read(b, Account(trade.buyer, p.quote)).locked then left == two
        else
          var three := two - (if t == p.quote then quote else 0);
          if fee > Read(b, Account(trade.buyer, p.base)).available + trade.quantity then left == three
          else left == three + (if t == p.base then trade.quantity - fee else 0)
  {
    var c := TradeChanges(p, trade);
    var b1 := Written(b, c[0]);
    var b2 := Written(b1, c[1]);
    var b3 := Written(b2, c[2]);
    FourWrites(b, c[0], c[1], c[2], c[3], t);
    assert Delta(c[1], t) == if t == p.quote then Quote(trade.quantity, trade.price) - trade.sellerFee else 0;
    assert Refused(b, c[0]) <==> trade.quantity > Read(b, c[0].account).locked;
    if !Refused(b, c[0]) {
      assert Read(b2, c[2].account).locked == Read(b, c[2].account).locked;
      assert Read(b3, c[3].account).available == Read(b, c[3].account).available;
    }
  }

  function Delta(x: Change, t: TokenId): int {
    if x.account.token == t then x.available + x.locked else 0
  }

  lemma FourWrites(b: Balances, x: Change, y: Change, z: Change, w: Change, t: TokenId)
    ensures
      var b1 := Written(b, x);
      var b2 := Written(b1, y);
      var b3 := Written(b2, z);
      Supply(Post(b, [x, y, z, w]).balances, t) == Supply(b, t)
        + if Refused(b, x) then 0
          else if Refused(b1, y) then Delta(x, t)
          else if Refused(b2, z) then Delta(x, t) + Delta(y, t)
          else if Refused(b3, w) then Delta(x, t) + Delta(y, t) + Delta(z, t)
          else Delta(x, t) + Delta(y, t) + Delta(z, t) + Delta(w, t)
  {
    var b1 := Written(b, x);
    var b2 := Written(b1, y);
    var b3 := Written(b2, z);
    PostsFour(b, x, y, z, w);
    WrittenSupply(b, x, t);
    WrittenSupply(b1, y, t);
    WrittenSupply(b2, z, t);
    WrittenSupply(b3, w, t);
  }

  lemma WrittenSupply(b: Balances, x: Change, t: TokenId)
    ensures !Refused(b, x) ==> Supply(Written(b, x), t) == Supply(b, t) + Delta(x, t)
  {
    SupplyAfterWrite(b, t, x.account, Written(b, x)[x.account]);
  }

  /** What an attempted trade adds to the wealth of a token, as written: nothing, unless a write is refused. */
  function Leak(b: Balances, p: Pair, trade: Trade, t: TokenId): int {
    var quote, fee := Quote(trade.quantity, trade.price), Fee(trade.quantity, trade.price);
    var inBase, inQuote := if t == p.base then 1 else 0, if t == p.quote then 1 else 0;
    if trade.quantity > Read(b, Account(trade.seller, p.base)).locked then inBase * fee + inQuote * fee
    else if quote > Read(b, Account(trade.buyer, p.quote)).locked then inBase * (fee - trade.quantity) + inQuote * quote
    else if fee > Read(b, Account(trade.buyer, p.base)).available + trade.quantity then inBase * (fee - trade.quantity)
    else 0
  }

  lemma WealthAfterRow(db: Db, db': Db, trade: Trade, t: TokenId)
    requires db'.trades == db.trades + [trade] && db'.swaps == db.swaps && db'.pairs == db.pairs
    ensures Wealth(db', t) - Wealth(db, t)
         == Supply(db'.balances, t) - Supply(db.balances, t) + FeesIn(db.pairs, t)(trade)
  {
    SumAppend(db.trades, trade, FeesIn(db.pairs, t));
  }

  /** The exact effect of an attempted trade on the wealth of every token, as written. */
  lemma UnguardedTradeLeaks(
    db: Db, carry: bool, takerId: nat, taker: Order, makerId: nat, maker: Order, quantity: nat, t: TokenId)
    requires takerId < |db.orders| && makerId < |db.orders| && taker.pair < |db.pairs|
    requires db.pairs[taker.pair].base != db.pairs[taker.pair].quote
    requires quantity > 0 && maker.price.Some? && maker.price.value > 0
    ensures
      var trade := TradeRow(takerId, taker, makerId, maker, maker.price.value, quantity);
      Wealth(ExecuteTrade(db, Mode(carry, false), takerId, taker, makerId, maker, quantity).db, t)
        == Wealth(db, t) + Leak(db.balances, db.pairs[taker.pair], trade, t)
  {
    var trade := TradeRow(takerId, taker, makerId, maker, maker.price.value, quantity);
    WealthAfterRow(db, ExecuteTrade(db, Mode(carry, false), takerId, taker, makerId, maker, quantity).db, trade, t);
    PartialTradeSupply(db.balances, db.pairs[taker.pair], trade, t);
  }

  /**
   * As written, a trade conserves every token exactly when its balances suffice, or the seller's lock
   * is short, which stops it before the first write, and the recorded fee is zero.
   */
  lemma UnguardedTradeConservesIff(
    db: Db, carry: bool, takerId: nat, taker: Order, makerId: nat, maker: Order, quantity: nat)
    requires takerId < |db.orders| && makerId < |db.orders| && taker.pair < |db.pairs|
    requires db.pairs[taker.pair].base != db.pairs[taker.pair].quote
    requires quantity > 0 && maker.price.Some? && maker.price.value > 0
    ensures
      var p, price := db.pairs[taker.pair], maker.price.value;
      var seller, buyer := Seller(taker, maker).user, Buyer(taker, maker).user;
      (forall t :: Wealth(ExecuteTrade(db, Mode(carry, false), takerId, taker, makerId, maker, quantity).db, t)
                == Wealth(db, t))
      <==> || Covered(db.balances, p, buyer, seller, quantity, price)
           || (quantity > Read(db.balances, Account(seller, p.base)).locked && Fee(quantity, price) == 0)
  {
    var p := db.pairs[taker.pair];
    var trade := TradeRow(takerId, taker, makerId, maker, maker.price.value, quantity);
    var db' := ExecuteTrade(db, Mode(carry, false), takerId, taker, makerId, maker, quantity).db;
    forall t ensures Wealth(db', t) == Wealth(db, t) + Leak(db.balances, p, trade, t) {
      UnguardedTradeLeaks(db, carry, takerId, taker, makerId, maker, quantity, t);
    }
    LeaksUnless(db.balances, p, trade);
    assert Wealth(db', p.base) == Wealth(db, p.base) + Leak(db.balances, p, trade, p.base);
    assert Wealth(db', p.quote) == Wealth(db, p.quote) + Leak(db.balances, p, trade, p.quote);
  }

  lemma LeaksUnless(b: Balances, p: Pair, trade: Trade)
    requires p.base != p.quote
    ensures
      var whole := || Covered(b, p, trade.buyer, trade.seller, trade.quantity, trade.price)
                   || (trade.quantity > Read(b, Account(trade.seller, p.base)).locked
                       && Fee(trade.quantity, trade.price) == 0);
      && (whole ==> forall t :: Leak(b, p, trade, t) == 0)
      && (!whole ==> Leak(b, p, trade, p.base) != 0 || Leak(b, p, trade, p.quote) != 0)
  {
  }

  // ---- Jobs ----

  /** What one turn of the loop adds to the wealth of a token: what its trade leaks, where nothing is undone. */
  function TurnLeak(p: Progress, mode: Mode, takerId: nat, makerId: nat, maker: Order, t: TokenId): int {
    var quantity := Min(p.remaining, Remaining(maker));
    if mode.atomicTrade || !CanMatch(p.taker, maker) || quantity <= 0 || maker.price.None? || maker.price.value == 0
       || p.taker.pair >= |p.db.pairs| then 0
    else Leak(p.db.balances, p.db.pairs[p.taker.pair],
              TradeRow(takerId, p.taker, makerId, maker, maker.price.value, quantity), t)
  }

  function LoopLeak(p: Progress, mode: Mode, takerId: nat, snapshot: seq<Order>, ids: seq<nat>, t: TokenId): int
    requires LoopReady(p, takerId, snapshot, ids)
    decreases |ids|
  {
    if ids == [] || p.remaining == 0 then 0
    else
      TurnLeak(p, mode, takerId, ids[0], snapshot[ids[0]], t)
      + LoopLeak(MatchOne(p, mode, takerId, ids[0], snapshot[ids[0]]), mode, takerId, snapshot, ids[1..], t)
  }

  function JobLeak(db: Db, mode: Mode, id: nat, t: TokenId): int {
    if !Matchable(db, id) then 0
    else
      var p := LoopStart(db, id);
      LoopLeak(p, mode, id, p.db.orders, Opponents(p.db, id), t)
  }

  lemma TurnWealth(p: Progress, mode: Mode, takerId: nat, makerId: nat, maker: Order, t: TokenId)
    requires takerId < |p.db.orders| && makerId < |p.db.orders| && p.taker.pair < |p.db.pairs|
    requires mode.atomicTrade || TwoTokens(p.db)
    ensures Wealth(MatchOne(p, mode, takerId, makerId, maker).db, t)
         == Wealth(p.db, t) + TurnLeak(p, mode, takerId, makerId, maker, t)
  {
    var quantity := Min(p.remaining, Remaining(maker));
    if CanMatch(p.taker, maker) {
      if mode.atomicTrade {
        TradeConserves(p.db, mode, takerId, p.taker, makerId, maker, quantity, t);
      } else if quantity > 0 && maker.price.Some? && maker.price.value > 0 {
        UnguardedTradeLeaks(p.db, mode.carryFill, takerId, p.taker, makerId, maker, quantity, t);
      }
    }
  }

  lemma {:induction false} LoopWealth(
    p: Progress, mode: Mode, takerId: nat, snapshot: seq<Order>, ids: seq<nat>, t: TokenId)
    requires LoopReady(p, takerId, snapshot, ids) && (mode.atomicTrade || TwoTokens(p.db))
    ensures Wealth(MatchLoop(p, mode, takerId, snapshot, ids).db, t)
         == Wealth(p.db, t) + LoopLeak(p, mode, takerId, snapshot, ids, t)
    decreases |ids|
  {
    if ids != [] && p.remaining != 0 {
      TurnWealth(p, mode, takerId, ids[0], snapshot[ids[0]], t);
      LoopWealth(MatchOne(p, mode, takerId, ids[0], snapshot[ids[0]]), mode, takerId, snapshot, ids[1..], t);
    }
  }

  lemma JobWealth(db: Db, mode: Mode, id: nat, t: TokenId)
    requires mode.atomicTrade || TwoTokens(db)
    ensures Wealth(MatchJob(db, mode, id).db, t) == Wealth(db, t) + JobLeak(db, mode, id, t)
  {
    if Matchable(db, id) {
      var p := LoopStart(db, id);
      LoopWealth(p, mode, id, p.db.orders, Opponents(p.db, id), t);
    }
  }

  lemma {:induction false} AtomicLoopLeaksNothing(
    p: Progress, mode: Mode, takerId: nat, snapshot: seq<Order>, ids: seq<nat>, t: TokenId)
    requires LoopReady(p, takerId, snapshot, ids) && mode.atomicTrade
    ensures LoopLeak(p, mode, takerId, snapshot, ids, t) == 0
    decreases |ids|
  {
    if ids != [] && p.remaining != 0 {
      AtomicLoopLeaksNothing(MatchOne(p, mode, takerId, ids[0], snapshot[ids[0]]), mode, takerId, snapshot, ids[1..],
                             t);
    }
  }

  // ---- Swaps ----

  /** What settling a swap brings into the accounts of a token. A missing source row is not debited. */
  function Settled(b: Balances, s: Swap, t: TokenId): int {
    (if s.target == t then s.targetAmount else 0)
    - (if s.source == t && Account(s.user, s.source) in b then s.sourceAmount else 0)
  }

  /**
   * What an attempt adds to the wealth of a token: a swap that ends other than COMPLETED after settling
   * leaves what settled unaccounted, a completed one accounts for a debit that a missing row escaped.
   */
  function AttemptLeak(db: Db, id: nat, event: AttemptEvent, t: TokenId): int {
    if id >= |db.swaps| || !Unfinished(db.swaps[id].status) || Settle(db.balances, db.swaps[id]).None? then 0
    else
      var s := db.swaps[id];
      match event
      case FailsAfterwards => Settled(db.balances, s, t)
      case Completes => if s.source == t && Account(s.user, s.source) !in db.balances then s.sourceAmount else 0
      case _ => 0
  }

  lemma SettleSupply(b: Balances, s: Swap, t: TokenId)
    requires Settle(b, s).Some?
    ensures Supply(Settle(b, s).value, t) == Supply(b, t) + Settled(b, s, t)
  {
    var source, target := Account(s.user, s.source), Account(s.user, s.target);
    var debited := b;
    if source in b {
      var row := Balance(b[source].available, b[source].locked - s.sourceAmount);
      SupplyAfterWrite(b, t, source, row);
      debited := b[source := row];
    }
    var credit := Balance(Read(debited, target).available + s.targetAmount, Read(debited, target).locked);
    SupplyAfterWrite(debited, t, target, credit);
  }

  lemma FailSwapWealth(db: Db, id: nat, t: TokenId)
    requires id < |db.swaps| && db.swaps[id].status != Completed
    ensures Wealth(FailSwap(db, id), t) == Wealth(db, t)
  {
    var s := db.swaps[id];
    LockKeepsSupply(db.balances, Account(s.user, s.source), s.sourceAmount, t);
    SumUpdate(db.swaps, id, s.(status := Failed), SwapOutflow(t));
  }

  lemma StatusWealth(db: Db, id: nat, status: SwapStatus, t: TokenId)
    requires id < |db.swaps|
    ensures Wealth(SetSwapStatus(db, id, status), t) == Wealth(db, t)
              - SwapOutflow(t)(db.swaps[id]) + SwapOutflow(t)(db.swaps[id].(status := status))
  {
    SumUpdate(db.swaps, id, db.swaps[id].(status := status), SwapOutflow(t));
  }

  /** The catch block takes back what a completed status accounted for. */
  lemma AfterErrorWealth(db: Db, id: nat, attemptsMade: nat, maxAttempts: nat, t: TokenId)
    requires id < |db.swaps|
    ensures Wealth(AfterError(db, id, attemptsMade, maxAttempts), t) == Wealth(db, t) - SwapOutflow(t)(db.swaps[id])
  {
    StatusWealth(db, id, Queued, t);
    var queued := SetSwapStatus(db, id, Queued);
    FailSwapWealth(queued, id, t);
    assert queued.swaps[id := queued.swaps[id].(status := Failed)] == db.swaps[id := db.swaps[id].(status := Failed)];
    assert FailSwap(queued, id) == FailSwap(db, id);
  }

  lemma SettledWealth(db: Db, id: nat, t: TokenId)
    requires id < |db.swaps| && Unfinished(db.swaps[id].status) && Settle(db.balances, db.swaps[id]).Some?
    ensures
      var done := SetSwapStatus(db, id, Completed).(balances := Settle(db.balances, db.swaps[id]).value);
      Wealth(done, t) == Wealth(db, t) + Settled(db.balances, db.swaps[id], t) + SwapOutflow(t)(done.swaps[id])
  {
    SettleSupply(db.balances, db.swaps[id], t);
    StatusWealth(db, id, Completed, t);
  }

  /** The exact effect of any attempt on the wealth of every token. */
  lemma SwapAttemptWealth(db: Db, id: nat, attemptsMade: nat, maxAttempts: nat, event: AttemptEvent, t: TokenId)
    ensures Wealth(SwapAttempt(db, id, attemptsMade, maxAttempts, event).db, t)
         == Wealth(db, t) + AttemptLeak(db, id, event, t)
  {
    if id < |db.swaps| && Unfinished(db.swaps[id].status) {
      FailSwapWealth(db, id, t);
      AfterErrorWealth(db, id, attemptsMade, maxAttempts, t);
      if Settle(db.balances, db.swaps[id]).Some? {
        SettledWealth(db, id, t);
        AfterErrorWealth(SetSwapStatus(db, id, Completed).(balances := Settle(db.balances, db.swaps[id]).value), id,
                         attemptsMade, maxAttempts, t);
      }
    }
  }

  /** A fault after completion conserves every token exactly when the swap moved nothing. */
  lemma LateFaultConservesIff(db: Db, id: nat, attemptsMade: nat, maxAttempts: nat)
    requires id < |db.swaps| && Unfinished(db.swaps[id].status) && db.swaps[id].source != db.swaps[id].target
    requires Settle(db.balances, db.swaps[id]).Some?
    ensures
      var s := db.swaps[id];
      (forall t :: Wealth(SwapAttempt(db, id, attemptsMade, maxAttempts, FailsAfterwards).db, t) == Wealth(db, t))
      <==> s.targetAmount == 0 && (s.sourceAmount == 0 || Account(s.user, s.source) !in db.balances)
  {
    var s, db' := db.swaps[id], SwapAttempt(db, id, attemptsMade, maxAttempts, FailsAfterwards).db;
    forall t ensures Wealth(db', t) == Wealth(db, t) + Settled(db.balances, s, t) {
      SwapAttemptWealth(db, id, attemptsMade, maxAttempts, FailsAfterwards, t);
    }
    assert Wealth(db', s.source) == Wealth(db, s.source) + Settled(db.balances, s, s.source);
    assert Wealth(db', s.target) == Wealth(db, s.target) + Settled(db.balances, s, s.target);
  }

  // ---- Runs ----

  lemma SubmitConserves(db: Db, o: OrderInput, admitted: bool, t: TokenId)
    ensures Wealth(Submit(db, o, admitted).db, t) == Wealth(db, t)
  {
    if o.pair < |db.pairs| && AmountToLock(o.side, o.price, o.quantity).Some? {
      LockKeepsSupply(db.balances, Account(o.user, LockedToken(db.pairs[o.pair], o.side)),
                      AmountToLock(o.side, o.price, o.quantity).value, t);
    }
  }

  lemma CancelConserves(db: Db, id: nat, user: UserId, t: TokenId)
    ensures Wealth(Cancel(db, id, user).db, t) == Wealth(db, t)
  {
    if Cancel(db, id, user).ok {
      var o := db.orders[id];
      LockKeepsSupply(db.balances, Account(o.user, LockedToken(db.pairs[o.pair], o.side)),
                      AmountToLock(o.side, o.price, Remaining(o)).value, t);
    }
  }

  lemma RequestSwapConserves(db: Db, s: SwapInput, usable: bool, t: TokenId)
    ensures Wealth(RequestSwap(db, s, usable).db, t) == Wealth(db, t)
  {
    LockKeepsSupply(db.balances, Account(s.user, s.source), s.amount, t);
    var r := RequestSwap(db, s, usable);
    if r.ok {
      SumAppend(db.swaps, r.db.swaps[|db.swaps|], SwapOutflow(t));
    }
  }

  lemma SwitchConserves(db: Db, pair: nat, active: bool, t: TokenId)
    ensures Wealth(Switch(db, pair, active), t) == Wealth(db, t)
  {
    var db' := Switch(db, pair, active);
    SumMonotone(db.trades, FeesIn(db.pairs, t), FeesIn(db'.pairs, t));
    SumMonotone(db.trades, FeesIn(db'.pairs, t), FeesIn(db.pairs, t));
  }

  /** What a step adds to the wealth of a token. */
  function StepLeak(db: Db, mode: Mode, step: Step, t: TokenId): int {
    match step
    case RunMatchJob(id) => JobLeak(db, mode, id, t)
    case RunSwapAttempt(id, _, _, event) => AttemptLeak(db, id, event, t)
    case _ => 0
  }

  function RunLeak(db: Db, mode: Mode, steps: seq<Step>, t: TokenId): int
    decreases |steps|
  {
    if steps == [] then 0
    else StepLeak(db, mode, steps[0], t) + RunLeak(Apply(db, mode, steps[0]), mode, steps[1..], t)
  }

  lemma StepWealth(db: Db, mode: Mode, step: Step, t: TokenId)
    requires mode.atomicTrade || TwoTokens(db)
    ensures Wealth(Apply(db, mode, step), t) == Wealth(db, t) + StepLeak(db, mode, step, t)
  {
    match step {
      case SubmitOrder(o, admitted) => SubmitConserves(db, o, admitted, t);
      case RunMatchJob(id) => JobWealth(db, mode, id, t);
      case CancelOrder(id, user) => CancelConserves(db, id, user, t);
      case AskSwap(s, usable) => RequestSwapConserves(db, s, usable, t);
      case RunSwapAttempt(id, made, most, event) => SwapAttemptWealth(db, id, made, most, event, t);
      case SwitchPair(pair, active) => SwitchConserves(db, pair, active, t);
    }
  }

  lemma StepKeepsTwoTokens(db: Db, mode: Mode, step: Step)
    requires TwoTokens(db)
    ensures TwoTokens(Apply(db, mode, step))
  {
    if !step.SwitchPair? {
      StepKeepsPairs(db, mode, step);
    }
  }

  lemma StepKeepsPairs(db: Db, mode: Mode, step: Step)
    requires !step.SwitchPair?
    ensures Apply(db, mode, step).pairs == db.pairs
  {
  }

  /**
   * The books of a whole run, any steps in any mode: per token, what accounts hold, plus fees taken,
   * plus what completed swaps moved out, changes by exactly what refused trades and late swap faults
   * leak, each read off the state before it.
   */
  lemma {:induction false} RunWealth(db: Db, mode: Mode, steps: seq<Step>, t: TokenId)
    requires mode.atomicTrade || TwoTokens(db)
    ensures Wealth(Run(db, mode, steps), t) == Wealth(db, t) + RunLeak(db, mode, steps, t)
    decreases |steps|
  {
    if steps != [] {
      StepWealth(db, mode, steps[0], t);
      if !mode.atomicTrade {
        StepKeepsTwoTokens(db, mode, steps[0]);
      }
      RunWealth(Apply(db, mode, steps[0]), mode, steps[1..], t);
    }
  }

  // ---- Runs that leak nothing ----

  /** An unfinished swap's source row exists: it was created before the lock and rows are never deleted. */
  ghost predicate SourceRows(db: Db) {
    forall k :: 0 <= k < |db.swaps| && Unfinished(db.swaps[k].status)
                ==> Account(db.swaps[k].user, db.swaps[k].source) in db.balances
  }

  lemma {:induction false} LoopKeepsRows(p: Progress, mode: Mode, takerId: nat, snapshot: seq<Order>, ids: seq<nat>)
    requires LoopReady(p, takerId, snapshot, ids)
    ensures
      var db' := MatchLoop(p, mode, takerId, snapshot, ids).db;
      p.db.balances.Keys <= db'.balances.Keys && db'.swaps == p.db.swaps
    decreases |ids|
  {
    if ids != [] && p.remaining != 0 {
      var maker := snapshot[ids[0]];
      TradeKeepsRows(p.db, mode, takerId, p.taker, ids[0], maker, Min(p.remaining, Remaining(maker)));
      LoopKeepsRows(MatchOne(p, mode, takerId, ids[0], maker), mode, takerId, snapshot, ids[1..]);
    }
  }

  lemma TradeKeepsRows(db: Db, mode: Mode, takerId: nat, taker: Order, makerId: nat, maker: Order, quantity: int)
    requires takerId < |db.orders| && makerId < |db.orders| && taker.pair < |db.pairs|
    ensures
      var db' := ExecuteTrade(db, mode, takerId, taker, makerId, maker, quantity).db;
      db.balances.Keys <= db'.balances.Keys && db'.swaps == db.swaps
  {
    if maker.price.Some? && maker.price.value > 0 && quantity > 0 {
      PostKeepsRows(db.balances, TradeChanges(db.pairs[taker.pair],
                                              TradeRow(takerId, taker, makerId, maker, maker.price.value, quantity)));
    }
  }

  lemma PostKeepsRows(b: Balances, changes: seq<Change>)
    ensures b.Keys <= Post(b, changes).balances.Keys
    decreases |changes|
  {
  }

  lemma JobKeepsSourceRows(db: Db, mode: Mode, id: nat)
    requires SourceRows(db)
    ensures SourceRows(MatchJob(db, mode, id).db)
  {
    if Matchable(db, id) {
      var p := LoopStart(db, id);
      LoopKeepsRows(p, mode, id, p.db.orders, Opponents(p.db, id));
    }
  }

  lemma RequestKeepsSourceRows(db: Db, input: SwapInput, usable: bool)
    requires SourceRows(db)
    ensures SourceRows(RequestSwap(db, input, usable).db)
  {
  }

  lemma AttemptKeepsSourceRows(db: Db, id: nat, attemptsMade: nat, maxAttempts: nat, event: AttemptEvent)
    requires SourceRows(db)
    ensures SourceRows(SwapAttempt(db, id, attemptsMade, maxAttempts, event).db)
  {
  }

  lemma OrdersKeepSourceRows(db: Db, input: OrderInput, admitted: bool, id: nat, user: UserId)
    requires SourceRows(db)
    ensures SourceRows(Submit(db, input, admitted).db) && SourceRows(Cancel(db, id, user).db)
  {
  }

  lemma StepKeepsSourceRows(db: Db, mode: Mode, step: Step)
    requires SourceRows(db)
    ensures SourceRows(Apply(db, mode, step))
  {
    match step {
      case SubmitOrder(o, admitted) => OrdersKeepSourceRows(db, o, admitted, 0, 0);
      case RunMatchJob(id) => JobKeepsSourceRows(db, mode, id);
      case CancelOrder(id, user) => OrdersKeepSourceRows(db, OrderInput(0, 0, Sell, Limit, None, 0), false, id, user);
      case AskSwap(s, usable) => RequestKeepsSourceRows(db, s, usable);
      case RunSwapAttempt(id, made, most, event) => AttemptKeepsSourceRows(db, id, made, most, event);
      case SwitchPair(pair, active) =>
    }
  }

  /**
   * With atomic trades and no fault after a swap completed, a run leaks nothing: MARKET BUY orders,
   * trades of a user with himself, stranded locks, stale fill counts and refused trades included.
   */
  lemma {:induction false} RunConserves(db: Db, mode: Mode, steps: seq<Step>, t: TokenId)
    requires SourceRows(db) && mode.atomicTrade
    requires forall i :: 0 <= i < |steps| && steps[i].RunSwapAttempt? ==> steps[i].event != FailsAfterwards
    ensures RunLeak(db, mode, steps, t) == 0 && Wealth(Run(db, mode, steps), t) == Wealth(db, t)
    decreases |steps|
  {
    if steps != [] {
      StepKeepsSourceRows(db, mode, steps[0]);
      if steps[0].RunMatchJob? && Matchable(db, steps[0].id) {
        var p := LoopStart(db, steps[0].id);
        AtomicLoopLeaksNothing(p, mode, steps[0].id, p.db.orders, Opponents(p.db, steps[0].id), t);
      }
      RunConserves(Apply(db, mode, steps[0]), mode, steps[1..], t);
    }
    RunWealth(db, mode, steps, t);
  }
}
