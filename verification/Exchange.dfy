/**
 * The rows of the exchange and the operations that change them, as functions from one database state
 * to the next. Row numbers stand for ids: rows are only ever appended, so a smaller number is an
 * earlier created_at.
 */
module Exchange {
  import opened Sums
  import opened Amounts
  import opened Ledger

  datatype Side = Buy | Sell
  datatype OrderKind = Limit | Market | StopLimit
  datatype OrderStatus = PendingMatch | Open | Partial | Filled | Cancelled | Rejected

  datatype Order = Order(
    user: UserId, pair: nat, side: Side, kind: OrderKind, status: OrderStatus,
    price: Option<nat>, quantity: nat, filled: nat)

  datatype Pair = Pair(base: TokenId, quote: TokenId, active: bool)

  datatype Trade = Trade(
    pair: nat, buyOrder: nat, sellOrder: nat, buyer: UserId, seller: UserId,
    price: nat, quantity: nat, buyerFee: nat, sellerFee: nat)

  datatype SwapStatus = Pending | Queued | Processing | Completed | Failed | Withdrawn

  datatype Swap = Swap(
    user: UserId, source: TokenId, target: TokenId,
    sourceAmount: nat, targetAmount: nat, status: SwapStatus)

  datatype Db = Db(
    pairs: seq<Pair>, balances: Balances, orders: seq<Order>, trades: seq<Trade>, swaps: seq<Swap>)

  /** The state an operation leaves behind, and whether it returned or threw. */
  datatype Outcome = Outcome(db: Db, ok: bool)

  function Opposite(side: Side): Side {
    if side == Buy then Sell else Buy
  }

  function Remaining(o: Order): int {
    o.quantity - o.filled
  }

  predicate Resting(s: OrderStatus) {
    s == Open || s == Partial
  }

  predicate Live(s: OrderStatus) {
    s == PendingMatch || Resting(s)
  }

  predicate Unfinished(s: SwapStatus) {
    s == Pending || s == Queued || s == Processing
  }

  // ---- Orders ----

  datatype OrderInput = OrderInput(
    user: UserId, pair: nat, side: Side, kind: OrderKind, price: Option<nat>, quantity: nat)

  function LockedToken(p: Pair, side: Side): TokenId {
    if side == Buy then p.quote else p.base
  }

  /** None where the amount cannot be computed: a BUY without a price. */
  function AmountToLock(side: Side, price: Option<nat>, quantity: nat): Option<nat> {
    if side == Sell then Some(quantity)
    else if price.None? then None
    else Some(Quote(quantity, price.value))
  }

  /**
   * submitOrder. admitted is the verdict of the checks that come first and touch no modelled row:
   * signature, nonce, expiry, compliance, order size.
   */
  function Submit(db: Db, input: OrderInput, admitted: bool): Outcome {
    if !admitted || input.pair >= |db.pairs| || !db.pairs[input.pair].active then Outcome(db, false)
    else if input.kind != Market && input.price.None? then Outcome(db, false)
    else
      var amount := AmountToLock(input.side, input.price, input.quantity);
      if amount.None? then Outcome(db, false)
      else
        var account := Account(input.user, LockedToken(db.pairs[input.pair], input.side));
        match Lock(db.balances, account, amount.value)
        case None => Outcome(db, false)
        case Some(balances) =>
          var db' := db.(balances := balances);
          // The CHECK constraint on quantity refuses the row after the lock was taken.
          if input.quantity == 0 then Outcome(db', false)
          else Outcome(db'.(orders := db.orders + [NewOrder(input)]), true)
  }

  function NewOrder(input: OrderInput): Order {
    Order(input.user, input.pair, input.side, input.kind, PendingMatch, input.price, input.quantity, 0)
  }

  /** cancelOrder, up to and including the status write. */
  function Cancel(db: Db, id: nat, user: UserId): Outcome {
    if id >= |db.orders| then Outcome(db, false)
    else
      var o := db.orders[id];
      if o.user != user || !Resting(o.status) || o.pair >= |db.pairs| || Remaining(o) < 0 then Outcome(db, false)
      else
        var amount := AmountToLock(o.side, o.price, Remaining(o));
        if amount.None? then Outcome(db, false)
        else
          match Unlock(db.balances, Account(o.user, LockedToken(db.pairs[o.pair], o.side)), amount.value)
          case None => Outcome(db, false)
          case Some(balances) =>
            Outcome(db.(balances := balances, orders := db.orders[id := o.(status := Cancelled)]), true)
  }

  // ---- Swaps ----

  /** quote is the target amount of a caller's own quote; without it the server builds one. */
  datatype SwapInput = SwapInput(
    user: UserId, source: TokenId, target: TokenId, amount: nat, quote: Option<nat>,
    sourceDecimals: nat, targetDecimals: nat)

  /** requestSwap. usable says that both tokens exist and have contract addresses. */
  function RequestSwap(db: Db, input: SwapInput, usable: bool): Outcome {
    if input.source == input.target || input.amount == 0 || !usable then Outcome(db, false)
    else
      match Lock(db.balances, Account(input.user, input.source), input.amount)
      case None => Outcome(db, false)
      case Some(balances) =>
        var db' := db.(balances := balances);
        // The quote is built after the lock was taken, and building it may throw.
        match ExpectedTarget(input)
        case None => Outcome(db', false)
        case Some(target) =>
          Outcome(db'.(swaps := db.swaps
                               + [Swap(input.user, input.source, input.target, input.amount, target, Queued)]), true)
  }

  function ExpectedTarget(input: SwapInput): Option<nat> {
    if input.quote.Some? then input.quote
    else BuildQuote(input.amount, input.sourceDecimals, input.targetDecimals)
  }

  /**
   * What one attempt meets: tokens or signer key gone, the bridge call failing, everything going
   * through, or the audit row or event failing after the swap was marked completed.
   */
  datatype AttemptEvent = Unavailable | BridgeFails | Completes | FailsAfterwards

  /** settleBalances: None when the debit is refused. A missing source row is not debited. */
  function Settle(b: Balances, s: Swap): Option<Balances> {
    var source := Account(s.user, s.source);
    var debited := if source in b
                   then Write(b, source, b[source].available, b[source].locked - s.sourceAmount)
                   else Some(b);
    if debited.None? then None
    else
      var target := Account(s.user, s.target);
      var row := Read(debited.value, target);
      Write(debited.value, target, row.available + s.targetAmount, row.locked)
  }

  function SetSwapStatus(db: Db, id: nat, status: SwapStatus): Db
    requires id < |db.swaps|
  {
    db.(swaps := db.swaps[id := db.swaps[id].(status := status)])
  }

  /** failSwap: a refused unlock is logged and swallowed. */
  function FailSwap(db: Db, id: nat): Db
    requires id < |db.swaps|
  {
    var s := db.swaps[id];
    var db' := SetSwapStatus(db, id, Failed);
    match Unlock(db.balances, Account(s.user, s.source), s.sourceAmount)
    case None => db'
    case Some(balances) => db'.(balances := balances)
  }

  /** processSwapJob: attempt number attemptsMade (from 0) of at most maxAttempts. */
  function SwapAttempt(db: Db, id: nat, attemptsMade: nat, maxAttempts: nat, event: AttemptEvent): Outcome {
    if id >= |db.swaps| || !Unfinished(db.swaps[id].status) then Outcome(db, true)
    else if event == Unavailable then Outcome(FailSwap(db, id), true)
    else if event == BridgeFails then Outcome(AfterError(db, id, attemptsMade, maxAttempts), false)
    else
      match Settle(db.balances, db.swaps[id])
      case None => Outcome(AfterError(db, id, attemptsMade, maxAttempts), false)
      case Some(balances) =>
        var done := SetSwapStatus(db, id, Completed).(balances := balances);
        if event == Completes then Outcome(done, true)
        else Outcome(AfterError(done, id, attemptsMade, maxAttempts), false)
  }

  /** The catch block of processSwapJob. */
  function AfterError(db: Db, id: nat, attemptsMade: nat, maxAttempts: nat): Db
    requires id < |db.swaps|
  {
    if attemptsMade + 1 >= maxAttempts then FailSwap(db, id) else SetSwapStatus(db, id, Queued)
  }
}
