/**
 * Every user's locked balance covers what their live orders and unfinished swaps still owe, and every
 * order's fill count is the sum of its trades.
 */
module Solvency {
  import opened Sums
  import opened Amounts
  import opened Ledger
  import opened Exchange
  import opened Matching
  import opened Trades

  // ---- What is still owed ----

  /** What cancelling the order now would give back. */
  function DebtAmount(o: Order): nat {
    match AmountToLock(o.side, o.price, Max(Remaining(o), 0))
    case None => 0
    case Some(amount) => amount
  }

  predicate Owes(pairs: seq<Pair>, o: Order, a: Account) {
    Live(o.status) && o.pair < |pairs| && a == Account(o.user, LockedToken(pairs[o.pair], o.side))
  }

  function OrderDebt(pairs: seq<Pair>, a: Account): Order -> int {
    (o: Order) => if Owes(pairs, o, a) then DebtAmount(o) else 0
  }

  function SwapDebt(a: Account): Swap -> int {
    (s: Swap) => if Unfinished(s.status) && a == Account(s.user, s.source) then s.sourceAmount else 0
  }

  ghost function Owed(db: Db, a: Account): int {
    Sum(db.orders, OrderDebt(db.pairs, a)) + Sum(db.swaps, SwapDebt(a))
  }

  /** Locked funds that no live order or unfinished swap lays claim to. */
  ghost function Slack(db: Db, a: Account): int {
    Read(db.balances, a).locked - Owed(db, a)
  }

  ghost predicate Solvent(db: Db) {
    forall a: Account :: Slack(db, a) >= 0
  }

  // ---- Rows ----

  /** What the orders table and submission allow. */
  ghost predicate OrderOk(pairs: seq<Pair>, o: Order) {
    && o.pair < |pairs| && 0 < o.quantity && o.filled <= o.quantity
    && (o.kind != Market || o.side == Buy ==> o.price.Some?)
    && (o.status == PendingMatch ==> o.filled == 0)
    && (o.status == Filled <==> o.filled == o.quantity)
  }

  /** Locks at its own price, accepts any: the one order whose trades may cost more than it locked. */
  predicate MarketBuy(o: Order) {
    o.kind == Market && o.side == Buy
  }

  function FillOf(id: nat): Trade -> int {
    (t: Trade) => (if t.buyOrder == id then t.quantity else 0) + (if t.sellOrder == id then t.quantity else 0)
  }

  /** The quantity that an order has traded. */
  ghost function Traded(trades: seq<Trade>, id: nat): int {
    Sum(trades, FillOf(id))
  }

  /** A trade prints at a price its buyer accepted. */
  ghost predicate TradeOk(orders: seq<Order>, t: Trade) {
    && t.buyOrder < |orders| && t.sellOrder < |orders| && t.buyOrder != t.sellOrder
    && orders[t.buyOrder].side == Buy && orders[t.sellOrder].side == Sell
    && orders[t.buyOrder].price.Some? && 0 < t.price && 0 < t.quantity
    && (orders[t.buyOrder].kind != Market ==> t.price <= orders[t.buyOrder].price.value)
  }

  /** Rows are well formed, and every order's fill count is the sum of its trades. */
  ghost predicate Books(db: Db) {
    && (forall i :: 0 <= i < |db.orders| ==> OrderOk(db.pairs, db.orders[i]))
    && (forall k :: 0 <= k < |db.trades| ==> TradeOk(db.orders, db.trades[k]))
    && (forall i :: 0 <= i < |db.orders| ==> Traded(db.trades, i) == db.orders[i].filled)
    && (forall k :: 0 <= k < |db.swaps| ==> db.swaps[k].source != db.swaps[k].target)
  }

  ghost predicate Sound(db: Db) {
    Books(db) && Solvent(db)
  }

  /** Every pair trades two tokens. */
  ghost predicate TwoTokens(db: Db) {
    forall k :: 0 <= k < |db.pairs| ==> db.pairs[k].base != db.pairs[k].quote
  }

  /** Two tokens per pair, and prices that are positive and keep the buyer's fee within the fill. */
  ghost predicate Capped(db: Db) {
    && TwoTokens(db)
    && (forall i :: 0 <= i < |db.orders| && db.orders[i].price.Some?
                    ==> 0 < db.orders[i].price.value <= FEE_SAFE_PRICE)
  }

  // ---- One trade ----

  /** How a trade moves the buyer's debt in quote against what the buyer pays. */
  ghost function BuyerGain(buyer: Order, quantity: nat, price: nat): int
    requires buyer.price.Some? && quantity <= Remaining(buyer)
  {
    Quote(Remaining(buyer), buyer.price.value) - Quote(Remaining(buyer) - quantity, buyer.price.value)
    - Quote(quantity, price)
  }

  /**
   * The exact effect of any executed trade on the slack of every account: it moves the buyer's quote
   * account alone, by the debt the order sheds less the amount paid.
   */
  lemma TradeSlack(
    db: Db, mode: Mode, takerId: nat, taker: Order, makerId: nat, maker: Order, quantity: int, a: Account)
    requires Selected(db, takerId, taker, makerId, maker, quantity)
    requires ExecuteTrade(db, mode, takerId, taker, makerId, maker, quantity).ok
    requires Buyer(taker, maker).price.Some?
    ensures
      var buyer := Buyer(taker, maker);
      Slack(ExecuteTrade(db, mode, takerId, taker, makerId, maker, quantity).db, a) == Slack(db, a)
        + (if a == Account(buyer.user, db.pairs[taker.pair].quote)
           then BuyerGain(buyer, quantity, maker.price.value) else 0)
  {
    var r := ExecuteTrade(db, mode, takerId, taker, makerId, maker, quantity);
    TradeMoves(db, mode, takerId, taker, makerId, maker, quantity, a);
    OwedAfterTrade(db, r.db, takerId, taker, makerId, maker, quantity, a);
  }

  ghost predicate OrdersTraded(
    db: Db, db': Db, takerId: nat, taker: Order, makerId: nat, maker: Order, quantity: nat)
  {
    && takerId < |db.orders| && makerId < |db.orders| && takerId != makerId
    && db'.pairs == db.pairs && db'.swaps == db.swaps
    && db'.orders == db.orders[takerId := RecordFill(db.orders[takerId], taker, quantity)]
                              [makerId := RecordFill(db.orders[makerId], maker, quantity)]
  }

  /** What both orders owe after a trade: the seller's debt in base and the buyer's debt in quote go down. */
  lemma OwedAfterTrade(
    db: Db, db': Db, takerId: nat, taker: Order, makerId: nat, maker: Order, quantity: nat, a: Account)
    requires Selected(db, takerId, taker, makerId, maker, quantity)
    requires OrdersTraded(db, db', takerId, taker, makerId, maker, quantity)
    requires Buyer(taker, maker).price.Some?
    ensures
      var p, buyer := db.pairs[taker.pair], Buyer(taker, maker);
      Owed(db', a) == Owed(db, a)
        - (if a == Account(Seller(taker, maker).user, p.base) then quantity else 0)
        - (if a == Account(buyer.user, p.quote)
           then Quote(Remaining(buyer), buyer.price.value) - Quote(Remaining(buyer) - quantity, buyer.price.value)
           else 0)
  {
    var row := db.orders[takerId];
    var row' := RecordFill(row, taker, quantity);
    var debt := OrderDebt(db.pairs, a);
    SumUpdate(db.orders, takerId, row', debt);
    SumUpdate(db.orders[takerId := row'], makerId, RecordFill(maker, maker, quantity), debt);
    DebtAfterFill(db.pairs, row, taker, quantity, a);
    DebtAfterFill(db.pairs, maker, maker, quantity, a);
  }

  /** A fill lowers the debt of its order by the quantity sold, or by the difference of two floors. */
  lemma DebtAfterFill(pairs: seq<Pair>, row: Order, snapshot: Order, quantity: nat, a: Account)
    requires Snapshot(row, snapshot) && Resting(row.status) && quantity <= Remaining(row) && row.pair < |pairs|
    requires row.side == Buy ==> row.price.Some?
    ensures var row' := RecordFill(row, snapshot, quantity);
            OrderDebt(pairs, a)(row') == OrderDebt(pairs, a)(row)
              - (if a != Account(row.user, LockedToken(pairs[row.pair], row.side)) then 0
                 else if row.side == Sell then quantity
                 else Quote(Remaining(row), row.price.value) - Quote(Remaining(row) - quantity, row.price.value))
  {
    if row.side == Buy && quantity == Remaining(row) {
      assert Quote(0, row.price.value) == 0;
    }
  }

  /** Buying at or below one's own price never loses slack. */
  lemma BuyerGainNonNegative(buyer: Order, quantity: nat, price: nat)
    requires buyer.price.Some? && quantity <= Remaining(buyer) && price <= buyer.price.value
    ensures BuyerGain(buyer, quantity, price) >= 0
  {
    QuoteSplit(Remaining(buyer) - quantity, quantity, buyer.price.value);
    QuoteMonotone(quantity, price, buyer.price.value);
  }

  lemma PriceAccepted(taker: Order, maker: Order)
    requires CanMatch(taker, maker) && taker.side == Opposite(maker.side)
    requires !MarketBuy(taker) && Buyer(taker, maker).price.Some? && maker.price.Some?
    ensures maker.price.value <= Buyer(taker, maker).price.value
  {
  }

  /** Within the cap, of what a selected trade draws on only the buyer's lock can be short. */
  lemma TradeCoveredIff(db: Db, takerId: nat, taker: Order, makerId: nat, maker: Order, quantity: int)
    requires Books(db) && Capped(db) && Selected(db, takerId, taker, makerId, maker, quantity)
    requires quantity > 0 && maker.price.Some? && maker.price.value > 0
    requires Slack(db, Account(Seller(taker, maker).user, db.pairs[taker.pair].base)) >= 0
    ensures
      var p, buyer, seller := db.pairs[taker.pair], Buyer(taker, maker).user, Seller(taker, maker).user;
      Covered(db.balances, p, buyer, seller, quantity, maker.price.value)
      <==> Quote(quantity, maker.price.value) <= Read(db.balances, Account(buyer, p.quote)).locked
  {
    var inBase := Account(Seller(taker, maker).user, db.pairs[taker.pair].base);
    OwesAtMostOwed(db, inBase, if taker.side == Buy then makerId else takerId);
    FeeWithinFill(quantity, maker.price.value);
  }

  /** A buyer whose account is solvent has locked what a trade at an accepted price costs. */
  lemma BuyerHasLocked(db: Db, takerId: nat, taker: Order, makerId: nat, maker: Order, quantity: nat)
    requires Books(db) && Selected(db, takerId, taker, makerId, maker, quantity)
    requires Buyer(taker, maker).price.Some? && maker.price.Some?
    requires maker.price.value <= Buyer(taker, maker).price.value
    requires Slack(db, Account(Buyer(taker, maker).user, db.pairs[taker.pair].quote)) >= 0
    ensures Quote(quantity, maker.price.value)
         <= Read(db.balances, Account(Buyer(taker, maker).user, db.pairs[taker.pair].quote)).locked
  {
    var inQuote := Account(Buyer(taker, maker).user, db.pairs[taker.pair].quote);
    OwesAtMostOwed(db, inQuote, if taker.side == Buy then takerId else makerId);
    BuyerGainNonNegative(Buyer(taker, maker), quantity, maker.price.value);
  }

  /** A trade within the cap between sound rows is covered, so it is not refused. */
  lemma TradeNotRefused(
    db: Db, mode: Mode, takerId: nat, taker: Order, makerId: nat, maker: Order, quantity: int)
    requires Sound(db) && Capped(db) && Selected(db, takerId, taker, makerId, maker, quantity)
    requires CanMatch(taker, maker) && !MarketBuy(taker)
    requires quantity > 0 && maker.price.Some? && maker.price.value > 0
    ensures ExecuteTrade(db, mode, takerId, taker, makerId, maker, quantity).ok
  {
    assert OrderOk(db.pairs, db.orders[takerId]) && OrderOk(db.pairs, db.orders[makerId]);
    PriceAccepted(taker, maker);
    BuyerHasLocked(db, takerId, taker, makerId, maker, quantity);
    TradeCoveredIff(db, takerId, taker, makerId, maker, quantity);
    TradeRefusedIff(db, mode, takerId, taker, makerId, maker, quantity);
  }

  lemma OwesAtMostOwed(db: Db, a: Account, id: nat)
    requires id < |db.orders| && Owes(db.pairs, db.orders[id], a)
    ensures DebtAmount(db.orders[id]) <= Owed(db, a)
  {
    SumMember(db.orders, OrderDebt(db.pairs, a), id);
    SumNonNegative(db.swaps, SwapDebt(a));
  }

  /** An executed trade that its buyer accepted keeps the rows well formed and the fill counts exact. */
  lemma TradeKeepsBooks(
    db: Db, mode: Mode, takerId: nat, taker: Order, makerId: nat, maker: Order, quantity: int)
    requires Books(db) && Selected(db, takerId, taker, makerId, maker, quantity) && CanMatch(taker, maker)
    requires ExecuteTrade(db, mode, takerId, taker, makerId, maker, quantity).ok
    ensures Books(ExecuteTrade(db, mode, takerId, taker, makerId, maker, quantity).db)
  {
    assert OrderOk(db.pairs, db.orders[takerId]) && OrderOk(db.pairs, db.orders[makerId]);
    if !MarketBuy(taker) {
      PriceAccepted(taker, maker);
    }
    var r := ExecuteTrade(db, mode, takerId, taker, makerId, maker, quantity);
    var trade := TradeRow(takerId, taker, makerId, maker, maker.price.value, quantity);
    RowsAfterTrade(db, r.db, trade, takerId, taker, makerId, maker, quantity);
  }

  /** A trade selected by the loop for anything but a MARKET BUY keeps the exchange sound, executed or refused. */
  lemma TradeKeepsSound(
    db: Db, mode: Mode, takerId: nat, taker: Order, makerId: nat, maker: Order, quantity: int)
    requires Sound(db) && Selected(db, takerId, taker, makerId, maker, quantity) && CanMatch(taker, maker)
    requires !MarketBuy(taker) && (mode.atomicTrade || Capped(db))
    ensures Sound(ExecuteTrade(db, mode, takerId, taker, makerId, maker, quantity).db)
  {
    var r := ExecuteTrade(db, mode, takerId, taker, makerId, maker, quantity);
    assert OrderOk(db.pairs, db.orders[takerId]) && OrderOk(db.pairs, db.orders[makerId]);
    if r.ok {
      PriceAccepted(taker, maker);
      forall a: Account ensures Slack(r.db, a) >= 0 {
        assert Slack(db, a) >= 0;
        TradeSlack(db, mode, takerId, taker, makerId, maker, quantity, a);
        BuyerGainNonNegative(Buyer(taker, maker), quantity, maker.price.value);
      }
      TradeKeepsBooks(db, mode, takerId, taker, makerId, maker, quantity);
    } else if !mode.atomicTrade && maker.price.Some? && maker.price.value > 0 && quantity > 0 {
      TradeNotRefused(db, mode, takerId, taker, makerId, maker, quantity);
    }
  }

  lemma RowsAfterTrade(
    db: Db, db': Db, t: Trade, takerId: nat, taker: Order, makerId: nat, maker: Order, quantity: nat)
    requires Books(db) && Selected(db, takerId, taker, makerId, maker, quantity) && quantity > 0
    requires OrdersTraded(db, db', takerId, taker, makerId, maker, quantity) && db'.trades == db.trades + [t]
    requires maker.price.Some? && Buyer(taker, maker).price.Some? && 0 < maker.price.value
    requires !MarketBuy(taker) ==> maker.price.value <= Buyer(taker, maker).price.value
    requires t == TradeRow(takerId, taker, makerId, maker, maker.price.value, quantity)
    ensures forall i :: 0 <= i < |db'.orders| ==> OrderOk(db'.pairs, db'.orders[i])
    ensures forall k :: 0 <= k < |db'.trades| ==> TradeOk(db'.orders, db'.trades[k])
    ensures forall i :: 0 <= i < |db'.orders| ==> Traded(db'.trades, i) == db'.orders[i].filled
  {
    var row' := RecordFill(db.orders[takerId], taker, quantity);
    var maker' := RecordFill(maker, maker, quantity);
    assert OrderOk(db.pairs, db.orders[takerId]) && OrderOk(db.pairs, maker);
    assert OrderOk(db.pairs, row') && OrderOk(db.pairs, maker');
    assert db'.orders[takerId] == row' && db'.orders[makerId] == maker';
    assert forall i :: 0 <= i < |db.orders| && i != takerId && i != makerId ==> db'.orders[i] == db.orders[i];
    TradesStayOk(db.orders, db'.orders, db.trades);
    forall i | 0 <= i < |db.orders| ensures Traded(db'.trades, i) == db'.orders[i].filled {
      SumAppend(db.trades, t, FillOf(i));
      assert Traded(db.trades, i) == db.orders[i].filled;
    }
  }

  /** Trades stay valid as long as orders keep their side, kind and price. */
  lemma TradesStayOk(orders: seq<Order>, orders': seq<Order>, trades: seq<Trade>)
    requires forall k :: 0 <= k < |trades| ==> TradeOk(orders, trades[k])
    requires |orders| <= |orders'|
    requires forall i :: 0 <= i < |orders| ==>
               && orders'[i].side == orders[i].side && orders'[i].kind == orders[i].kind
               && orders'[i].price == orders[i].price
    ensures forall k :: 0 <= k < |trades| ==> TradeOk(orders', trades[k])
  {
    forall k | 0 <= k < |trades| ensures TradeOk(orders', trades[k]) {
      assert TradeOk(orders, trades[k]);
    }
  }
}
