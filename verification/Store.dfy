/**
 * The services at work: tables and a balance cache that methods update in place, statement by
 * statement. Each method is proved to leave the tables as the function of the same operation says,
 * as written, and to keep every cached balance equal to its row.
 */
module Store {
  import opened Sums
  import opened Amounts
  import opened Ledger
  import opened Exchange
  import opened Matching

  class ExchangeStore {
    var pairs: seq<Pair>
    var balances: Balances
    var orders: seq<Order>
    var trades: seq<Trade>
    var swaps: seq<Swap>
    /** Redis: the last balance read or written through the token service, until it expires. */
    var cache: Balances

    /** A cached balance is its row. */
    ghost predicate Coherent()
      reads this
    {
      forall a :: a in cache ==> a in balances && cache[a] == balances[a]
    }

    ghost function State(): Db
      reads this
    {
      Db(pairs, balances, orders, trades, swaps)
    }

    constructor (pairs: seq<Pair>, balances: Balances)
      ensures Coherent() && State() == Db(pairs, balances, [], [], [])
    {
      this.pairs, this.balances, this.orders, this.trades, this.swaps := pairs, balances, [], [], [];
      this.cache := map[];
    }

    // ---- Token service: a write-through cache over the balance rows ----

    /** A cached entry expires. */
    method Evict(a: Account)
      requires Coherent()
      modifies this`cache
      ensures Coherent() && cache == old(cache) - {a}
    {
      cache := cache - {a};
    }

    /** getUserBalance: from the cache, or from the row and then into the cache. */
    method GetUserBalance(a: Account) returns (row: Option<Balance>)
      requires Coherent()
      modifies this`cache
      ensures Coherent()
      ensures row == if a in balances then Some(balances[a]) else None
    {
      if a in cache {
        return Some(cache[a]);
      }
      if a !in balances {
        return None;
      }
      cache := cache[a := balances[a]];
      return Some(balances[a]);
    }

    /** updateBalanceInternal. Not ok: the CHECK constraint refused the row. */
    method UpdateBalanceInternal(a: Account, available: int, locked: int) returns (ok: bool)
      requires Coherent()
      modifies this`balances, this`cache
      ensures Coherent()
      ensures ok == Write(old(balances), a, available, locked).Some?
      ensures balances == Write(old(balances), a, available, locked).GetOr(old(balances))
    {
      ok := available >= 0 && locked >= 0;
      if ok {
        balances := balances[a := Balance(available, locked)];
        cache := cache[a := balances[a]];
      }
    }

    method LockBalanceForOrder(a: Account, amount: nat) returns (ok: bool)
      requires Coherent()
      modifies this`balances, this`cache
      ensures Coherent()
      ensures ok == Lock(old(balances), a, amount).Some?
      ensures balances == Lock(old(balances), a, amount).GetOr(old(balances))
    {
      ok := a in balances && balances[a].available >= amount;
      if ok {
        balances := balances[a := Balance(balances[a].available - amount, balances[a].locked + amount)];
        cache := cache[a := balances[a]];
      }
    }

    method UnlockBalanceFromOrder(a: Account, amount: nat) returns (ok: bool)
      requires Coherent()
      modifies this`balances, this`cache
      ensures Coherent()
      ensures ok == Unlock(old(balances), a, amount).Some?
      ensures balances == Unlock(old(balances), a, amount).GetOr(old(balances))
    {
      ok := a in balances && balances[a].locked >= amount;
      if ok {
        balances := balances[a := Balance(balances[a].available + amount, balances[a].locked - amount)];
        cache := cache[a := balances[a]];
      }
    }

    // ---- Matching worker ----

    method GetAvailableBalance(a: Account) returns (available: nat)
      requires Coherent()
      modifies this`cache
      ensures Coherent() && available == Read(balances, a).available
    {
      var row := GetUserBalance(a);
      available := if row.Some? then row.value.available else 0;
    }

    method GetLockedBalance(a: Account) returns (locked: nat)
      requires Coherent()
      modifies this`cache
      ensures Coherent() && locked == Read(balances, a).locked
    {
      var row := GetUserBalance(a);
      locked := if row.Some? then row.value.locked else 0;
    }

    /**
     * One balance statement of executeTrade: two reads through the cache and an overwrite. It acts as
     * the single in-place addition that posting the change performs.
     */
    method PostThroughCache(c: Change) returns (ok: bool)
      requires Coherent()
      modifies this`balances, this`cache
      ensures Coherent()
      ensures Post(old(balances), [c]) == Posted(balances, ok)
      ensures ok == !Refused(old(balances), c)
      ensures balances == if ok then Written(old(balances), c) else old(balances)
    {
      var available := GetAvailableBalance(c.account);
      var locked := GetLockedBalance(c.account);
      ok := UpdateBalanceInternal(c.account, available + c.available, locked + c.locked);
      PostFirstWrite(old(balances), c, []);
      assert [c] + [] == [c];
    }

    /** updateOrderStatus with a filled quantity. */
    method RecordFillOf(id: nat, snapshot: Order, quantity: nat)
      requires id < |orders|
      modifies this`orders
      ensures orders == old(orders)[id := RecordFill(old(orders)[id], snapshot, quantity)]
    {
      var filled := snapshot.filled + quantity;
      var status := if filled == snapshot.quantity then Filled else Partial;
      orders := orders[id := orders[id].(status := status, filled := filled)];
    }

    /** Four balance statements in turn, up to the first that is refused. */
    method PostInTurn(x: Change, y: Change, z: Change, w: Change) returns (ok: bool)
      requires Coherent()
      modifies this`balances, this`cache
      ensures Coherent()
      ensures Post(old(balances), [x, y, z, w]) == Posted(balances, ok)
    {
      PostsFour(balances, x, y, z, w);
      ok := PostThroughCache(x);
      if !ok {
        return;
      }
      ok := PostThroughCache(y);
      if !ok {
        return;
      }
      ok := PostThroughCache(z);
      if !ok {
        return;
      }
      ok := PostThroughCache(w);
    }

    /** The balance statements of executeTrade. */
    method PostTrade(p: Pair, trade: Trade) returns (ok: bool)
      requires Coherent()
      modifies this`balances, this`cache
      ensures Coherent()
      ensures Post(old(balances), TradeChanges(p, trade)) == Posted(balances, ok)
    {
      var sold: int, quote: int := trade.quantity, Quote(trade.quantity, trade.price);
      ok := PostInTurn(Change(Account(trade.seller, p.base), 0, -sold),
                       Change(Account(trade.seller, p.quote), quote - trade.sellerFee, 0),
                       Change(Account(trade.buyer, p.quote), 0, -quote),
                       Change(Account(trade.buyer, p.base), sold - trade.buyerFee, 0));
    }

    /** executeTrade: the statements commit one by one; a refused one stops the trade where it stands. */
    method ExecuteTrade(takerId: nat, taker: Order, makerId: nat, maker: Order, quantity: int) returns (ok: bool)
      requires Coherent()
      requires takerId < |orders| && makerId < |orders| && taker.pair < |pairs|
      modifies this`balances, this`cache, this`trades, this`orders
      ensures Coherent()
      ensures Matching.ExecuteTrade(old(State()), AS_WRITTEN, takerId, taker, makerId, maker, quantity)
           == Outcome(State(), ok)
    {
      if maker.price.None? || maker.price.value == 0 || quantity <= 0 {
        return false;
      }
      var trade := TradeRow(takerId, taker, makerId, maker, maker.price.value, quantity);
      trades := trades + [trade];
      ok := PostTrade(pairs[taker.pair], trade);
      if ok {
        RecordFillOf(takerId, taker, quantity);
        RecordFillOf(makerId, maker, quantity);
      }
    }

    /** One turn of the matching loop that does not break. */
    method MatchWith(takerId: nat, taker: Order, makerId: nat, maker: Order, remaining: int, executed: nat)
      returns (remaining': int, executed': nat)
      requires Coherent()
      requires takerId < |orders| && makerId < |orders| && taker.pair < |pairs|
      modifies this`balances, this`cache, this`trades, this`orders
      ensures Coherent()
      ensures MatchOne(Progress(old(State()), taker, remaining, executed), AS_WRITTEN, takerId, makerId, maker)
           == Progress(State(), taker, remaining', executed')
    {
      remaining', executed' := remaining, executed;
      if CanMatch(taker, maker) {
        var quantity := Min(remaining, Remaining(maker));
        var ok := ExecuteTrade(takerId, taker, makerId, maker, quantity);
        if ok {
          executed' := executed + 1;
          remaining' := remaining - quantity;
        }
      }
    }

    /** The loop of executeMatching, over snapshots fetched before it starts. */
    method ExecuteMatching(takerId: nat, taker: Order, snapshot: seq<Order>, ids: seq<nat>)
      returns (remaining: int, executed: nat)
      requires Coherent() && LoopReady(Progress(State(), taker, Remaining(taker), 0), takerId, snapshot, ids)
      modifies this`balances, this`cache, this`trades, this`orders
      ensures Coherent()
      ensures MatchLoop(Progress(old(State()), taker, Remaining(taker), 0), AS_WRITTEN, takerId, snapshot, ids)
           == Progress(State(), taker, remaining, executed)
    {
      ghost var start := Progress(State(), taker, Remaining(taker), 0);
      remaining, executed := Remaining(taker), 0;
      var i := 0;
      while i < |ids|
        invariant 0 <= i <= |ids| && Coherent()
        invariant LoopReady(Progress(State(), taker, remaining, executed), takerId, snapshot, ids[i..])
        invariant MatchLoop(Progress(State(), taker, remaining, executed), AS_WRITTEN, takerId, snapshot, ids[i..])
               == MatchLoop(start, AS_WRITTEN, takerId, snapshot, ids)
      {
        if remaining == 0 {
          break;
        }
        assert ids[i..][1..] == ids[i + 1..];
        remaining, executed := MatchWith(takerId, taker, ids[i], snapshot[ids[i]], remaining, executed);
        i := i + 1;
      }
    }

    /** processMatchingJob and executeMatching. */
    method ProcessMatchingJob(id: nat) returns (ok: bool)
      requires Coherent()
      modifies this
      ensures Coherent()
      ensures MatchJob(old(State()), AS_WRITTEN, id) == Outcome(State(), ok)
    {
      if id >= |orders| {
        return false;
      }
      var order := orders[id];
      if !Live(order.status) {
        return true;
      }
      if order.pair >= |pairs| {
        return false;
      }
      if !pairs[order.pair].active {
        orders := SetStatus(orders, id, Cancelled);
        return true;
      }
      if order.status == PendingMatch {
        orders := SetStatus(orders, id, Open);
        order := order.(status := Open);
      }
      var opposing := Fetch(orders, order.pair, Opposite(order.side));
      var remaining, executed := ExecuteMatching(id, order, orders, opposing);
      if remaining == 0 {
        orders := SetStatus(orders, id, Filled);
      } else if remaining < order.quantity {
        orders := SetStatus(orders, id, Partial);
      }
      return true;
    }

    /** scheduleOpposingMatches: filter the fetched orders, keep the first ten, queue a job for each. */
    method ScheduleOpposingMatches(id: nat) returns (jobs: seq<nat>)
      requires id < |orders|
      ensures jobs == Rematches(State(), id)
    {
      var order := orders[id];
      var opposing := Fetch(orders, order.pair, Opposite(order.side));
      var matchable: seq<nat> := [];
      for i := 0 to |opposing|
        invariant matchable + Willing(orders, order, opposing[i..]) == Willing(orders, order, opposing)
      {
        assert opposing[i..][1..] == opposing[i + 1..];
        if CanMatch(orders[opposing[i]], order) {
          matchable := matchable + [opposing[i]];
        }
      }
      jobs := if |matchable| <= REMATCH_LIMIT then matchable else matchable[..REMATCH_LIMIT];
    }

    // ---- Trading service ----

    method SubmitOrder(input: OrderInput, admitted: bool) returns (ok: bool)
      requires Coherent()
      modifies this
      ensures Coherent()
      ensures Submit(old(State()), input, admitted) == Outcome(State(), ok)
    {
      if !admitted || input.pair >= |pairs| || !pairs[input.pair].active {
        return false;
      }
      if input.kind != Market && input.price.None? {
        return false;
      }
      if input.side == Buy && input.price.None? {
        return false;
      }
      var token := if input.side == Buy then pairs[input.pair].quote else pairs[input.pair].base;
      var amount := if input.side == Buy then Quote(input.quantity, input.price.value) else input.quantity;
      ok := LockBalanceForOrder(Account(input.user, token), amount);
      if !ok {
        return;
      }
      if input.quantity == 0 {
        return false;
      }
      orders := orders + [NewOrder(input)];
    }

    method CancelOrder(id: nat, user: UserId) returns (ok: bool)
      requires Coherent()
      modifies this
      ensures Coherent()
      ensures Cancel(old(State()), id, user) == Outcome(State(), ok)
    {
      if id >= |orders| || orders[id].user != user || !Resting(orders[id].status) {
        return false;
      }
      var order := orders[id];
      if order.pair >= |pairs| || Remaining(order) < 0 || (order.side == Buy && order.price.None?) {
        return false;
      }
      var unfilled: nat := Remaining(order);
      var token := if order.side == Buy then pairs[order.pair].quote else pairs[order.pair].base;
      var amount := if order.side == Buy then Quote(unfilled, order.price.value) else unfilled;
      ok := UnlockBalanceFromOrder(Account(order.user, token), amount);
      if ok {
        orders := SetStatus(orders, id, Cancelled);
      }
    }

    // ---- Swap service ----

    method RequestSwap(input: SwapInput, usable: bool) returns (ok: bool)
      requires Coherent()
      modifies this
      ensures Coherent()
      ensures Exchange.RequestSwap(old(State()), input, usable) == Outcome(State(), ok)
    {
      if input.source == input.target || input.amount == 0 || !usable {
        return false;
      }
      var source := Account(input.user, input.source);
      var row := GetUserBalance(source);
      if row.None? || row.value.available < input.amount {
        return false;
      }
      ok := LockBalanceForOrder(source, input.amount);
      var quote := if input.quote.Some? then input.quote
                   else BuildQuote(input.amount, input.sourceDecimals, input.targetDecimals);
      if quote.None? {
        return false;
      }
      swaps := swaps + [Swap(input.user, input.source, input.target, input.amount, quote.value, Pending)];
      swaps := swaps[|swaps| - 1 := swaps[|swaps| - 1].(status := Queued)];
    }

    /** settleBalances: reads the rows themselves, writes through the cache. */
    method SettleBalances(s: Swap) returns (ok: bool)
      requires Coherent()
      modifies this`balances, this`cache
      ensures Coherent()
      ensures ok == Settle(old(balances), s).Some?
      ensures balances == Settle(old(balances), s).GetOr(old(balances))
    {
      var source, target := Account(s.user, s.source), Account(s.user, s.target);
      if source in balances {
        ok := UpdateBalanceInternal(source, balances[source].available, balances[source].locked - s.sourceAmount);
        if !ok {
          return;
        }
      }
      var row := Read(balances, target);
      ok := UpdateBalanceInternal(target, row.available + s.targetAmount, row.locked);
    }

    method FailSwap(id: nat)
      requires Coherent() && id < |swaps|
      modifies this
      ensures Coherent()
      ensures State() == Exchange.FailSwap(old(State()), id)
    {
      swaps := swaps[id := swaps[id].(status := Failed)];
      var unlocked := UnlockBalanceFromOrder(Account(swaps[id].user, swaps[id].source), swaps[id].sourceAmount);
    }

    /** The catch block of processSwapJob. */
    method HandleSwapError(id: nat, attemptsMade: nat, maxAttempts: nat)
      requires Coherent() && id < |swaps|
      modifies this
      ensures Coherent()
      ensures State() == AfterError(old(State()), id, attemptsMade, maxAttempts)
    {
      if attemptsMade + 1 >= maxAttempts {
        FailSwap(id);
      } else {
        swaps := swaps[id := swaps[id].(status := Queued)];
      }
    }

    method ProcessSwapJob(id: nat, attemptsMade: nat, maxAttempts: nat, event: AttemptEvent) returns (ok: bool)
      requires Coherent()
      modifies this
      ensures Coherent()
      ensures SwapAttempt(old(State()), id, attemptsMade, maxAttempts, event) == Outcome(State(), ok)
    {
      if id >= |swaps| || !Unfinished(swaps[id].status) {
        return true;
      }
      if event == Unavailable {
        FailSwap(id);
        return true;
      }
      ProcessingIsForgotten(State(), id, attemptsMade, maxAttempts, event);
      swaps := swaps[id := swaps[id].(status := Processing)];
      if event == BridgeFails {
        HandleSwapError(id, attemptsMade, maxAttempts);
        return false;
      }
      ok := CompleteSwap(id);
      if !ok {
        HandleSwapError(id, attemptsMade, maxAttempts);
        return;
      }
      if event == FailsAfterwards {
        HandleSwapError(id, attemptsMade, maxAttempts);
        return false;
      }
    }

    /** settleBalances and markSwapCompleted. */
    method CompleteSwap(id: nat) returns (ok: bool)
      requires Coherent() && id < |swaps|
      modifies this`balances, this`cache, this`swaps
      ensures Coherent()
      ensures ok == Settle(old(balances), old(swaps[id])).Some?
      ensures State() == if ok then SetSwapStatus(old(State()), id, Completed)
                                    .(balances := Settle(old(balances), old(swaps[id])).value)
                         else old(State())
    {
      ok := SettleBalances(swaps[id]);
      if ok {
        swaps := swaps[id := swaps[id].(status := Completed)];
      }
    }
  }

  /** Having been marked PROCESSING makes no difference to what an attempt leaves behind. */
  lemma ProcessingIsForgotten(db: Db, id: nat, attemptsMade: nat, maxAttempts: nat, event: AttemptEvent)
    requires id < |db.swaps| && Unfinished(db.swaps[id].status)
    ensures SwapAttempt(SetSwapStatus(db, id, Processing), id, attemptsMade, maxAttempts, event)
         == SwapAttempt(db, id, attemptsMade, maxAttempts, event)
  {
    var db' := SetSwapStatus(db, id, Processing);
    assert forall s: SwapStatus ::
        db'.swaps[id := db'.swaps[id].(status := s)] == db.swaps[id := db.swaps[id].(status := s)];
  }
}
