/** Runs of the exchange: any operations in any order, with any arguments. */
module Runs {
  import opened Sums
  import opened Amounts
  import opened Ledger
  import opened Exchange
  import opened Matching
  import opened Solvency
  import opened Jobs
  import opened Overdraft

  datatype Step =
    | SubmitOrder(order: OrderInput, admitted: bool)
    | RunMatchJob(id: nat)
    | CancelOrder(id: nat, user: UserId)
    | AskSwap(swap: SwapInput, usable: bool)
    | RunSwapAttempt(id: nat, attemptsMade: nat, maxAttempts: nat, event: AttemptEvent)
    | SwitchPair(pair: nat, active: bool)

  function Switch(db: Db, pair: nat, active: bool): Db {
    if pair < |db.pairs| then db.(pairs := db.pairs[pair := db.pairs[pair].(active := active)]) else db
  }

  function Apply(db: Db, mode: Mode, step: Step): Db {
    match step
    case SubmitOrder(order, admitted) => Submit(db, order, admitted).db
    case RunMatchJob(id) => MatchJob(db, mode, id).db
    case CancelOrder(id, user) => Cancel(db, id, user).db
    case AskSwap(swap, usable) => RequestSwap(db, swap, usable).db
    case RunSwapAttempt(id, made, most, event) => SwapAttempt(db, id, made, most, event).db
    case SwitchPair(pair, active) => Switch(db, pair, active)
  }

  function Run(db: Db, mode: Mode, steps: seq<Step>): Db
    decreases |steps|
  {
    if steps == [] then db else Run(Apply(db, mode, steps[0]), mode, steps[1..])
  }

  predicate WithinCap(step: Step) {
    step.SubmitOrder? && step.order.price.Some? ==> 0 < step.order.price.value <= FEE_SAFE_PRICE
  }

  // ---- Each operation keeps the exchange sound ----

  lemma {:induction false} TradedByNobody(orders: seq<Order>, trades: seq<Trade>, id: nat)
    requires |orders| <= id && forall k :: 0 <= k < |trades| ==> TradeOk(orders, trades[k])
    ensures Traded(trades, id) == 0
  {
    if |trades| > 0 {
      var k := |trades| - 1;
      assert TradeOk(orders, trades[k]);
      TradedByNobody(orders, trades[..k], id);
    }
  }

  /** A lock that nothing claims yet only adds slack. */
  lemma LockKeepsSound(db: Db, account: Account, amount: nat)
    requires Sound(db) && Lock(db.balances, account, amount).Some?
    ensures
      var db' := db.(balances := Lock(db.balances, account, amount).value);
      Sound(db') && forall a: Account :: Slack(db', a) == Slack(db, a) + (if a == account then amount else 0)
  {
    var db' := db.(balances := Lock(db.balances, account, amount).value);
    forall a: Account ensures Slack(db', a) == Slack(db, a) + (if a == account then amount else 0) {
      assert Owed(db', a) == Owed(db, a);
    }
    forall a: Account ensures Slack(db', a) >= 0 {
      assert Slack(db, a) >= 0;
    }
  }

  /** A new order may claim what slack there is. */
  lemma NewOrderKeepsSound(db: Db, o: Order)
    requires Sound(db) && OrderOk(db.pairs, o) && o.filled == 0
    requires Slack(db, Account(o.user, LockedToken(db.pairs[o.pair], o.side))) >= DebtAmount(o)
    ensures Sound(db.(orders := db.orders + [o]))
  {
    var db' := db.(orders := db.orders + [o]);
    forall a: Account ensures Slack(db', a) >= 0 {
      assert Slack(db, a) >= 0;
      SumAppend(db.orders, o, OrderDebt(db.pairs, a));
    }
    TradesStayOk(db.orders, db'.orders, db.trades);
    TradedByNobody(db.orders, db.trades, |db.orders|);
    assert forall i :: 0 <= i < |db.orders| ==> db'.orders[i] == db.orders[i];
  }

  lemma SubmitKeepsSound(db: Db, input: OrderInput, admitted: bool)
    requires Sound(db)
    ensures Sound(Submit(db, input, admitted).db)
  {
    if Submit(db, input, admitted).db != db {
      var account := Account(input.user, LockedToken(db.pairs[input.pair], input.side));
      var amount := AmountToLock(input.side, input.price, input.quantity).value;
      LockKeepsSound(db, account, amount);
      if input.quantity != 0 {
        var locked := db.(balances := Lock(db.balances, account, amount).value);
        assert Slack(db, account) >= 0 && DebtAmount(NewOrder(input)) == amount;
        NewOrderKeepsSound(locked, NewOrder(input));
      }
    }
  }

  lemma CancelKeepsSound(db: Db, id: nat, user: UserId)
    requires Sound(db)
    ensures Sound(Cancel(db, id, user).db)
  {
    var r := Cancel(db, id, user);
    if r.ok {
      assert OrderOk(db.pairs, db.orders[id]);
      forall a: Account ensures Slack(r.db, a) >= 0 {
        assert Slack(db, a) >= 0;
        OwedAfterStatus(db, id, Cancelled, a);
        assert Owed(r.db, a) == Owed(db.(orders := SetStatus(db.orders, id, Cancelled)), a);
      }
      TradesStayOk(db.orders, r.db.orders, db.trades);
      assert forall i :: 0 <= i < |db.orders| && i != id ==> r.db.orders[i] == db.orders[i];
    }
  }

  lemma RequestSwapKeepsSound(db: Db, input: SwapInput, usable: bool)
    requires Sound(db)
    ensures Sound(RequestSwap(db, input, usable).db)
  {
    var r := RequestSwap(db, input, usable);
    forall a: Account ensures Slack(r.db, a) >= 0 {
      assert Slack(db, a) >= 0;
      if r.ok {
        SumAppend(db.swaps, r.db.swaps[|db.swaps|], SwapDebt(a));
      }
    }
  }

  lemma OwedAfterSwapStatus(db: Db, id: nat, status: SwapStatus, a: Account)
    requires id < |db.swaps|
    ensures Owed(SetSwapStatus(db, id, status), a) == Owed(db, a)
      - SwapDebt(a)(db.swaps[id]) + SwapDebt(a)(db.swaps[id].(status := status))
  {
    SumUpdate(db.swaps, id, db.swaps[id].(status := status), SwapDebt(a));
  }

  /** The attempt fails after its swap was settled and marked completed. */
  predicate LateFault(db: Db, id: nat, event: AttemptEvent) {
    event == FailsAfterwards && id < |db.swaps| && Unfinished(db.swaps[id].status)
  }

  /** An attempt keeps the exchange sound unless it fails after completing and no slack absorbs that. */
  lemma SwapAttemptSoundIff(db: Db, id: nat, attemptsMade: nat, maxAttempts: nat, event: AttemptEvent)
    requires Sound(db)
    ensures Sound(SwapAttempt(db, id, attemptsMade, maxAttempts, event).db)
       <==> (LateFault(db, id, event) ==> LateFaultAbsorbed(db, id, attemptsMade, maxAttempts))
  {
    if id < |db.swaps| && Unfinished(db.swaps[id].status) {
      if event == FailsAfterwards {
        LateFaultSoundIff(db, id, attemptsMade, maxAttempts);
      } else {
        FailSwapKeepsSound(db, id);
        RequeueKeepsSound(db, id);
        SettleKeepsSound(db, id);
      }
    }
  }

  lemma FailSwapKeepsSound(db: Db, id: nat)
    requires Sound(db) && id < |db.swaps| && Unfinished(db.swaps[id].status)
    ensures Sound(FailSwap(db, id))
  {
    forall a: Account ensures Slack(FailSwap(db, id), a) >= 0 {
      assert Slack(db, a) >= 0;
      OwedAfterSwapStatus(db, id, Failed, a);
    }
  }

  lemma RequeueKeepsSound(db: Db, id: nat)
    requires Sound(db) && id < |db.swaps| && Unfinished(db.swaps[id].status)
    ensures Sound(SetSwapStatus(db, id, Queued))
  {
    forall a: Account ensures Slack(SetSwapStatus(db, id, Queued), a) >= 0 {
      assert Slack(db, a) >= 0;
      OwedAfterSwapStatus(db, id, Queued, a);
    }
  }

  lemma SettleKeepsSound(db: Db, id: nat)
    requires Sound(db) && id < |db.swaps| && Unfinished(db.swaps[id].status)
    ensures var settled := Settle(db.balances, db.swaps[id]);
            settled.Some? ==> Sound(SetSwapStatus(db, id, Completed).(balances := settled.value))
  {
    var settled := Settle(db.balances, db.swaps[id]);
    if settled.Some? {
      var db' := SetSwapStatus(db, id, Completed).(balances := settled.value);
      forall a: Account ensures Slack(db', a) >= 0 {
        assert Slack(db, a) >= 0;
        OwedAfterSwapStatus(db, id, Completed, a);
        assert Owed(db', a) == Owed(SetSwapStatus(db, id, Completed), a);
      }
    }
  }

  lemma SwitchKeepsSound(db: Db, pair: nat, active: bool)
    requires Sound(db)
    ensures Sound(Switch(db, pair, active))
    ensures Capped(db) ==> Capped(Switch(db, pair, active))
  {
    var db' := Switch(db, pair, active);
    forall a: Account ensures Slack(db', a) >= 0 {
      assert Slack(db, a) >= 0;
      SumMonotone(db.orders, OrderDebt(db'.pairs, a), OrderDebt(db.pairs, a));
    }
    forall i | 0 <= i < |db.orders| ensures OrderOk(db'.pairs, db'.orders[i]) {
      assert OrderOk(db.pairs, db.orders[i]);
    }
  }

  lemma StepKeepsCapped(db: Db, mode: Mode, step: Step)
    requires Capped(db) && WithinCap(step)
    ensures Capped(Apply(db, mode, step))
  {
    match step {
      case SubmitOrder(order, admitted) => SubmitKeepsCapped(db, order, admitted);
      case RunMatchJob(id) => JobKeepsCapped(db, mode, id);
      case CancelOrder(id, user) => CancelKeepsCapped(db, id, user);
      case AskSwap(swap, usable) => SwapsKeepOrders(db, swap, usable, 0, 0, 0, Unavailable);
      case RunSwapAttempt(id, made, most, event) =>
        SwapsKeepOrders(db, SwapInput(0, 0, 0, 0, None, 0, 0), false, id, made, most, event);
      case SwitchPair(pair, active) =>
        assert Switch(db, pair, active).orders == db.orders;
    }
  }

  lemma SubmitKeepsCapped(db: Db, input: OrderInput, admitted: bool)
    requires Capped(db) && WithinCap(SubmitOrder(input, admitted))
    ensures Capped(Submit(db, input, admitted).db)
  {
    var db' := Submit(db, input, admitted).db;
    assert db'.pairs == db.pairs && (db'.orders == db.orders || db'.orders == db.orders + [NewOrder(input)]);
  }

  lemma CancelKeepsCapped(db: Db, id: nat, user: UserId)
    requires Capped(db)
    ensures Capped(Cancel(db, id, user).db)
  {
    CappedByTerms(db, Cancel(db, id, user).db);
  }

  lemma SwapsKeepOrders(
    db: Db, input: SwapInput, usable: bool, id: nat, attemptsMade: nat, maxAttempts: nat, event: AttemptEvent)
    ensures RequestSwap(db, input, usable).db.orders == db.orders && RequestSwap(db, input, usable).db.pairs == db.pairs
    ensures var db' := SwapAttempt(db, id, attemptsMade, maxAttempts, event).db;
            db'.orders == db.orders && db'.pairs == db.pairs
  {
  }

  lemma JobKeepsCapped(db: Db, mode: Mode, id: nat)
    requires Capped(db)
    ensures Capped(MatchJob(db, mode, id).db)
  {
    var db' := MatchJob(db, mode, id).db;
    if Matchable(db, id) {
      var p, q := LoopStart(db, id), LoopEnd(db, mode, id);
      OpponentsReady(db, id);
      LoopFrame(p, mode, id, p.db.orders, Opponents(p.db, id));
      CappedByTerms(p.db, q.db);
    }
  }

  // ---- Whole runs ----

  /**
   * The step is not one of the two that may overdraw a lock: a job whose taker is a MARKET BUY, or a
   * fault after a swap completed.
   */
  predicate Safe(db: Db, step: Step) {
    match step
    case RunMatchJob(id) => Matchable(db, id) ==> !MarketBuy(db.orders[id])
    case RunSwapAttempt(id, _, _, event) => !LateFault(db, id, event)
    case _ => true
  }

  predicate AlwaysSafe(db: Db, mode: Mode, steps: seq<Step>)
    decreases |steps|
  {
    steps != [] ==> Safe(db, steps[0]) && AlwaysSafe(Apply(db, mode, steps[0]), mode, steps[1..])
  }

  lemma StepKeepsSound(db: Db, mode: Mode, step: Step)
    requires Sound(db) && mode.carryFill && Safe(db, step)
    requires mode.atomicTrade || Capped(db)
    ensures Sound(Apply(db, mode, step))
  {
    match step {
      case SubmitOrder(order, admitted) => SubmitKeepsSound(db, order, admitted);
      case RunMatchJob(id) => JobKeepsSound(db, mode, id);
      case CancelOrder(id, user) => CancelKeepsSound(db, id, user);
      case AskSwap(swap, usable) => RequestSwapKeepsSound(db, swap, usable);
      case RunSwapAttempt(id, made, most, event) => SwapAttemptSoundIff(db, id, made, most, event);
      case SwitchPair(pair, active) => SwitchKeepsSound(db, pair, active);
    }
  }

  /**
   * With atomic trades and at any prices, every run of safe steps keeps every account's locked balance
   * at or above what its live orders and unfinished swaps owe, keeps every order's fill count equal to
   * the sum of its trades and at most its quantity, and keeps FILLED exact.
   */
  lemma {:induction false} RunKeepsSound(db: Db, mode: Mode, steps: seq<Step>)
    requires Sound(db) && mode.carryFill && mode.atomicTrade && AlwaysSafe(db, mode, steps)
    ensures Sound(Run(db, mode, steps))
    decreases |steps|
  {
    if steps != [] {
      StepKeepsSound(db, mode, steps[0]);
      RunKeepsSound(Apply(db, mode, steps[0]), mode, steps[1..]);
    }
  }

  /** What an exchange does with users' deposits, from its first order on. */
  lemma ExchangeStaysSound(pairs: seq<Pair>, balances: Balances, mode: Mode, steps: seq<Step>)
    requires mode.carryFill && mode.atomicTrade && AlwaysSafe(Db(pairs, balances, [], [], []), mode, steps)
    ensures Sound(Run(Db(pairs, balances, [], [], []), mode, steps))
  {
    RunKeepsSound(Db(pairs, balances, [], [], []), mode, steps);
  }
}
