/** Inputs on which a property that reads as a matter of course does not hold of the code. */
module Counterexamples {
  import opened Sums
  import opened Amounts
  import opened Ledger
  import opened Exchange
  import opened Matching
  import opened OrderBook
  import opened Trades
  import opened Solvency
  import opened Overdraft
  import opened Allocation
  import opened Fills
  import opened Guards
  import opened Crossing
  import opened Conservation

  // ---- Two fills in one job ----

  const PAIR := Pair(0, 1, true)

  function Ask(price: nat, status: OrderStatus, filled: nat): Order {
    Order(1, 0, Sell, Limit, status, Some(price), 1, filled)
  }

  function Bid(price: nat, status: OrderStatus, filled: nat): Order {
    Order(0, 0, Buy, Limit, status, Some(price), 3, filled)
  }

  /** User 0 has bought n of the three units from user 1. */
  function Bought(n: nat): Balances
    requires n <= 2
  {
    map[Account(0, 0) := Balance(n, 0), Account(0, 1) := Balance(0, 3 - n),
        Account(1, 0) := Balance(0, 2 - n), Account(1, 1) := Balance(n, 0)]
  }

  function Between(n: nat, orders: seq<Order>, trades: seq<Trade>): Db
    requires n <= 2
  {
    Db([PAIR], Bought(n), orders, trades, [])
  }

  /** Two asks of one unit and a bid for three, each with its lock. */
  function ThreeOrders(price: nat, bid: OrderStatus): Db {
    Between(0, [Ask(price, Open, 0), Ask(price, Open, 0), Bid(price, bid, 0)], [])
  }

  function Print(price: nat, askId: nat): Trade {
    Trade(0, 2, askId, 0, 1, price, 1, 0, 0)
  }

  /** The units of this example cost one each, as they do at a price of SCALE. */
  predicate UnitPrice(price: nat) {
    price > 0 && Quote(1, price) == 1 && Quote(2, price) == 2 && Quote(3, price) == 3
  }

  lemma UnitPost(price: nat, n: nat, askId: nat)
    requires n < 2 && UnitPrice(price)
    ensures Post(Bought(n), TradeChanges(PAIR, Print(price, askId))) == Posted(Bought(n + 1), true)
  {
    var c := TradeChanges(PAIR, Print(price, askId));
    var b1 := Bought(n)[Account(1, 0) := Balance(0, 1 - n)];
    var b2 := b1[Account(1, 1) := Balance(n + 1, 0)];
    var b3 := b2[Account(0, 1) := Balance(0, 2 - n)];
    assert Post(Bought(n), c) == Post(b1, c[1..]);
    assert Post(b1, c[1..]) == Post(b2, c[1..][1..]);
    assert Post(b2, c[1..][1..]) == Post(b3, c[1..][1..][1..]);
    assert b3[Account(0, 0) := Balance(n + 1, 0)] == Bought(n + 1);
    assert c[1..][1..][1..][1..] == [];
    assert Post(b3, c[1..][1..][1..]) == Post(Bought(n + 1), []);
  }

  /** As written, the bid counts only the fill at hand: one, the first time and the second. */
  lemma UnitFill(price: nat, n: nat, askId: nat, orders: seq<Order>, trades: seq<Trade>)
    requires n < 2 && UnitPrice(price) && |orders| == 3 && askId < 2
    requires orders[askId] == Ask(price, Open, 0) && orders[2] == Bid(price, orders[2].status, orders[2].filled)
    ensures
      var sold, short := Ask(price, Filled, 1), Bid(price, Partial, 1);
      MatchOne(Progress(Between(n, orders, trades), Bid(price, Open, 0), 3 - n, n), AS_WRITTEN, 2, askId, orders[askId])
        == Progress(Between(n + 1, orders[2 := short][askId := sold], trades + [Print(price, askId)]),
                    Bid(price, Open, 0), 2 - n, n + 1)
  {
    UnitPost(price, n, askId);
    assert Fee(1, price) == 0;
    assert TradeRow(2, Bid(price, Open, 0), askId, orders[askId], price, 1) == Print(price, askId);
  }

  lemma AsksInOrder(price: nat)
    ensures Opponents(ThreeOrders(price, Open), 2) == [0, 1]
  {
    var orders := ThreeOrders(price, Open).orders;
    assert BookUpTo(orders, 0, Sell, 0) == [];
    assert BookUpTo(orders, 0, Sell, 1) == [0];
    assert Insert(orders, Sell, 1, [0]) == [0] + Insert(orders, Sell, 1, []);
    assert BookUpTo(orders, 0, Sell, 2) == [0, 1];
    assert BookUpTo(orders, 0, Sell, 3) == [0, 1];
  }

  /** The state of the example after its job, as written. */
  function AfterBoth(price: nat): Db {
    Between(2, [Ask(price, Filled, 1), Ask(price, Filled, 1), Bid(price, Partial, 1)],
            [Print(price, 0), Print(price, 1)])
  }

  lemma StaleLoop(price: nat)
    requires UnitPrice(price)
    ensures
      var bid, start := Bid(price, Open, 0), ThreeOrders(price, Open);
      MatchLoop(Progress(start, bid, 3, 0), AS_WRITTEN, 2, start.orders, [0, 1])
        == Progress(AfterBoth(price), bid, 1, 2)
  {
    var bid, start := Bid(price, Open, 0), ThreeOrders(price, Open);
    var ask, sold, short := start.orders[0], Ask(price, Filled, 1), Bid(price, Partial, 1);
    var middle := [sold, ask, short];
    UnitFill(price, 0, 0, start.orders, []);
    assert start.orders[2 := short][0 := sold] == middle && [] + [Print(price, 0)] == [Print(price, 0)];
    UnitFill(price, 1, 1, middle, [Print(price, 0)]);
    assert middle[2 := short][1 := sold] == AfterBoth(price).orders;
    assert [Print(price, 0)] + [Print(price, 1)] == AfterBoth(price).trades;
    var p, q := Progress(start, bid, 3, 0), Progress(Between(1, middle, [Print(price, 0)]), bid, 2, 1);
    assert [0, 1][1..] == [1] && [1][1..] == [];
    assert MatchLoop(p, AS_WRITTEN, 2, start.orders, [0, 1]) == MatchLoop(q, AS_WRITTEN, 2, start.orders, [1]);
  }

  lemma StaleJob(price: nat)
    requires UnitPrice(price)
    ensures MatchJob(ThreeOrders(price, PendingMatch), AS_WRITTEN, 2).db == AfterBoth(price)
  {
    var db := ThreeOrders(price, PendingMatch);
    AsksInOrder(price);
    StaleLoop(price);
    assert SetStatus(db.orders, 2, Open) == ThreeOrders(price, Open).orders;
    assert LoopStart(db, 2) == Progress(ThreeOrders(price, Open), Bid(price, Open, 0), 3, 0);
    assert LoopEnd(db, AS_WRITTEN, 2) == Progress(AfterBoth(price), Bid(price, Open, 0), 1, 2);
    assert SetStatus(AfterBoth(price).orders, 2, Partial) == AfterBoth(price).orders;
  }

  lemma SumThree(x: Order, y: Order, z: Order, f: Order -> int)
    ensures Sum([x, y, z], f) == f(x) + f(y) + f(z)
  {
    SumAppend([x, y], z, f);
    SumAppend([x], y, f);
    SumAppend([], x, f);
    assert [x, y] + [z] == [x, y, z] && [x] + [y] == [x, y] && [] + [x] == [x];
  }

  lemma ThreeOrdersSound(price: nat)
    requires UnitPrice(price)
    ensures Sound(ThreeOrders(price, PendingMatch))
  {
    var db := ThreeOrders(price, PendingMatch);
    forall a: Account ensures Slack(db, a) >= 0 {
      SumThree(db.orders[0], db.orders[1], db.orders[2], OrderDebt(db.pairs, a));
      assert db.orders == [db.orders[0], db.orders[1], db.orders[2]];
    }
  }

  /**
   * Two fills in one job: as written the second overwrites the first, so the bid is recorded as short
   * of two units when it is short of one. Its lock no longer covers it, and its cancel is refused.
   */
  lemma StaleFillLosesSolvency(price: nat)
    requires UnitPrice(price)
    ensures Sound(ThreeOrders(price, PendingMatch))
    ensures var db := MatchJob(ThreeOrders(price, PendingMatch), AS_WRITTEN, 2).db;
            && Traded(db.trades, 2) == 2 && db.orders[2].filled == 1 && db.orders[2].status == Partial
            && !Solvent(db) && !Cancel(db, 2, 0).ok
  {
    ThreeOrdersSound(price);
    StaleJob(price);
    var db := AfterBoth(price);
    SumThree(db.orders[0], db.orders[1], db.orders[2], OrderDebt(db.pairs, Account(0, 1)));
    assert db.orders == [db.orders[0], db.orders[1], db.orders[2]];
    assert Slack(db, Account(0, 1)) == -1;
    BothTraded(price);
  }

  lemma BothTraded(price: nat)
    ensures Traded(AfterBoth(price).trades, 2) == 2
  {
    SumAppend([Print(price, 0)], Print(price, 1), FillOf(2));
    SumAppend([], Print(price, 0), FillOf(2));
    assert [] + [Print(price, 0)] == [Print(price, 0)];
    assert AfterBoth(price).trades == [Print(price, 0)] + [Print(price, 1)];
  }

  // ---- A MARKET BUY ----

  /** User 0 bids for three units at the price, and for one at market with the same price attached. */
  function WithMarketBid(price: nat): Db {
    Db([PAIR],
       map[Account(0, 0) := Balance(0, 0), Account(0, 1) := Balance(0, 4),
           Account(1, 0) := Balance(0, 1), Account(1, 1) := Balance(0, 0)],
       [Order(1, 0, Sell, Limit, Open, Some(2 * price), 1, 0), Bid(price, Open, 0),
        Order(0, 0, Buy, Market, Open, Some(price), 1, 0)],
       [], [])
  }

  lemma OneAsk(price: nat)
    ensures Opponents(WithMarketBid(price), 2) == [0]
  {
    var orders := WithMarketBid(price).orders;
    assert BookUpTo(orders, 0, Sell, 0) == [];
    assert BookUpTo(orders, 0, Sell, 1) == [0];
    assert BookUpTo(orders, 0, Sell, 2) == [0];
    assert BookUpTo(orders, 0, Sell, 3) == [0];
  }

  lemma MarketFill(price: nat, mode: Mode)
    requires UnitPrice(price) && Quote(1, 2 * price) == 2
    ensures
      var db := WithMarketBid(price);
      var r := ExecuteTrade(db, mode, 2, db.orders[2], 0, db.orders[0], 1);
      r.ok && Slack(r.db, Account(0, 1)) == Slack(db, Account(0, 1)) - 1
  {
    var db := WithMarketBid(price);
    assert Fee(1, 2 * price) == 0 && Quote(0, price) == 0;
    TradeRefusedIff(db, mode, 2, db.orders[2], 0, db.orders[0], 1);
    TradeSlack(db, mode, 2, db.orders[2], 0, db.orders[0], 1, Account(0, 1));
  }

  lemma MarketBidSound(price: nat)
    requires UnitPrice(price)
    ensures Sound(WithMarketBid(price)) && Slack(WithMarketBid(price), Account(0, 1)) == 0
  {
    var db := WithMarketBid(price);
    forall a: Account ensures Slack(db, a) >= 0 && (a == Account(0, 1) ==> Slack(db, a) == 0) {
      SumThree(db.orders[0], db.orders[1], db.orders[2], OrderDebt(db.pairs, a));
      assert db.orders == [db.orders[0], db.orders[1], db.orders[2]];
    }
  }

  /** A MARKET BUY locks at its own price but pays the ask's: what it overpays comes out of other locks. */
  lemma MarketBuyLosesSolvency(price: nat, mode: Mode)
    requires UnitPrice(price) && Quote(1, 2 * price) == 2
    ensures Sound(WithMarketBid(price))
    ensures !Solvent(MatchJob(WithMarketBid(price), mode, 2).db)
  {
    var db := WithMarketBid(price);
    MarketBidSound(price);
    OneAsk(price);
    MarketFill(price, mode);
    var p := LoopStart(db, 2);
    var q := MatchOne(p, mode, 2, 0, db.orders[0]);
    assert [0][1..] == [];
    assert LoopEnd(db, mode, 2) == q;
    assert SetStatus(q.db.orders, 2, Filled) == q.db.orders;
    assert Slack(q.db, Account(0, 1)) == -1;
  }

  // ---- A fault after a swap completed ----

  /** One queued swap and its lock. */
  function OneSwap(amount: nat): Db {
    Db([], map[Account(0, 0) := Balance(0, amount)], [], [], [Swap(0, 0, 1, amount, amount, Queued)])
  }

  /** The fault spends the lock and puts the swap back into the queue, which goes on claiming it. */
  lemma LateFaultLosesSolvency(amount: nat, attemptsMade: nat, maxAttempts: nat)
    requires amount > 0 && attemptsMade + 1 < maxAttempts
    ensures Sound(OneSwap(amount))
    ensures !Solvent(SwapAttempt(OneSwap(amount), 0, attemptsMade, maxAttempts, FailsAfterwards).db)
  {
    OneSwapSound(amount);
    LateFaultSlack(OneSwap(amount), 0, attemptsMade, maxAttempts, Account(0, 0));
  }

  lemma OneSwapSound(amount: nat)
    ensures Sound(OneSwap(amount)) && Slack(OneSwap(amount), Account(0, 0)) == 0
  {
    var s := OneSwap(amount).swaps[0];
    forall a: Account ensures Slack(OneSwap(amount), a) == 0 {
      SumAppend([], s, SwapDebt(a));
      assert [] + [s] == OneSwap(amount).swaps;
    }
  }

  // ---- A refused balance write ----

  /** The same ask and market bid alone, each with its lock. */
  function ShortMarketBid(price: nat): Db {
    Db([PAIR],
       map[Account(0, 1) := Balance(0, 1), Account(1, 0) := Balance(0, 1)],
       [Order(1, 0, Sell, Limit, Open, Some(2 * price), 1, 0), Order(0, 0, Buy, Market, Open, Some(price), 1, 0)],
       [], [])
  }

  lemma ShortBidSound(price: nat)
    requires UnitPrice(price)
    ensures Sound(ShortMarketBid(price)) && Capped(ShortMarketBid(price)) && Matchable(ShortMarketBid(price), 1)
  {
    var db := ShortMarketBid(price);
    assert price <= 2 * SCALE by {
      assert Quote(3, price) == 3;
    }
    forall a: Account ensures Slack(db, a) >= 0 {
      SumAppend([db.orders[0]], db.orders[1], OrderDebt(db.pairs, a));
      SumAppend([], db.orders[0], OrderDebt(db.pairs, a));
      assert [] + [db.orders[0]] == [db.orders[0]] && [db.orders[0]] + [db.orders[1]] == db.orders;
    }
  }

  /**
   * As written, the trade stops at the buyer's payment with the seller already debited and credited:
   * a unit of base is gone and two units of quote have appeared.
   */
  lemma RefusedTradeCreatesQuote(price: nat, carry: bool, t: TokenId)
    requires UnitPrice(price) && Quote(1, 2 * price) == 2
    ensures
      var db := ShortMarketBid(price);
      var r := ExecuteTrade(db, Mode(carry, false), 1, db.orders[1], 0, db.orders[0], 1);
      && Sound(db) && !r.ok && r.db.orders == db.orders
      && Wealth(r.db, t) == Wealth(db, t) + (if t == 0 then -1 else if t == 1 then 2 else 0)
  {
    var db := ShortMarketBid(price);
    ShortBidSound(price);
    assert Fee(1, 2 * price) == 0;
    TradeRefusedIff(db, Mode(carry, false), 1, db.orders[1], 0, db.orders[0], 1);
    UnguardedTradeLeaks(db, carry, 1, db.orders[1], 0, db.orders[0], 1, t);
  }

  lemma ShortBidMeetsAsk(price: nat)
    ensures Opponents(ShortMarketBid(price), 1) == [0]
  {
    var orders := ShortMarketBid(price).orders;
    assert BookUpTo(orders, 0, Sell, 0) == [];
    assert BookUpTo(orders, 0, Sell, 1) == [0];
    assert BookUpTo(orders, 0, Sell, 2) == [0];
  }

  /** The job of that order, as written: the lock does not cover what it wants, and the books do not balance after. */
  lemma UncoveredJobCreatesQuote(price: nat, t: TokenId)
    requires UnitPrice(price) && Quote(1, 2 * price) == 2
    ensures
      var db := ShortMarketBid(price);
      var db' := MatchJob(db, AS_WRITTEN, 1).db;
      && Sound(db) && Capped(db) && Matchable(db, 1) && !LockCovers(db, 1) && !Sound(db')
      && Wealth(db', t) == Wealth(db, t) + (if t == 0 then -1 else if t == 1 then 2 else 0)
  {
    var db := ShortMarketBid(price);
    ShortBidSound(price);
    RefusedTradeCreatesQuote(price, false, t);
    ShortBidJobIsTrade(price);
    ShortBidIsUncovered(price);
    JobSoundIff(db, AS_WRITTEN, 1);
  }

  /** All that the job does is the refused trade. */
  lemma ShortBidJobIsTrade(price: nat)
    requires UnitPrice(price) && Quote(1, 2 * price) == 2
    ensures
      var db := ShortMarketBid(price);
      && Matchable(db, 1)
      && MatchJob(db, AS_WRITTEN, 1).db == ExecuteTrade(db, AS_WRITTEN, 1, db.orders[1], 0, db.orders[0], 1).db
  {
    var db := ShortMarketBid(price);
    ShortBidMeetsAsk(price);
    RefusedTradeCreatesQuote(price, false, 0);
    assert [0][1..] == [];
    assert LoopEnd(db, AS_WRITTEN, 1) == MatchOne(LoopStart(db, 1), AS_WRITTEN, 1, 0, db.orders[0]);
  }

  lemma ShortBidIsUncovered(price: nat)
    requires UnitPrice(price) && Quote(1, 2 * price) == 2
    ensures Matchable(ShortMarketBid(price), 1) && !LockCovers(ShortMarketBid(price), 1)
  {
    var db := ShortMarketBid(price);
    ShortBidMeetsAsk(price);
    var taker, makers := Taker(db, 1), Fetched(db, 1);
    assert makers == [db.orders[0]];
    AllocateFirst(taker, makers, 1);
    assert Fill(taker, db.orders[0], 1) == 1;
  }

  // ---- More asks than a job fetches ----

  /** n asks of one unit each, and a new bid for all of them at their price. */
  function LongBook(price: nat, n: nat): Db {
    Db([PAIR],
       map[Account(0, 1) := Balance(0, Quote(n, price)), Account(1, 0) := Balance(0, n)],
       seq(n, _ => Ask(price, Open, 0)) + [Order(0, 0, Buy, Limit, PendingMatch, Some(price), n, 0)],
       [], [])
  }

  lemma {:induction false} SumRepeated(o: Order, n: nat, f: Order -> int)
    ensures Sum(seq(n, _ => o), f) == n * f(o)
  {
    if n > 0 {
      SumRepeated(o, n - 1, f);
      assert seq(n, _ => o)[..n - 1] == seq(n - 1, _ => o);
    }
  }

  lemma LongBookSound(price: nat, n: nat)
    requires n > 0
    ensures Sound(LongBook(price, n))
  {
    var db, ask := LongBook(price, n), Ask(price, Open, 0);
    forall a: Account ensures Slack(db, a) >= 0 {
      SumRepeated(ask, n, OrderDebt(db.pairs, a));
      SumAppend(seq(n, _ => ask), db.orders[n], OrderDebt(db.pairs, a));
    }
  }

  /** A list without repetition that is shorter than n misses a number below n. */
  lemma {:induction false} Missing(ids: seq<nat>, n: nat) returns (id: nat)
    requires |ids| < n && Distinct(ids)
    ensures id < n && id !in ids
    decreases n
  {
    if n - 1 !in ids {
      id := n - 1;
    } else {
      var k :| 0 <= k < |ids| && ids[k] == n - 1;
      var rest := ids[..k] + ids[k + 1..];
      id := Missing(rest, n - 1);
      forall i | 0 <= i < |ids| ensures ids[i] != id {
        assert i < k ==> ids[i] == rest[i];
        assert i > k ==> ids[i] == rest[i - 1];
      }
    }
  }

  lemma {:induction false} SumAtMostLength(s: seq<Order>, f: Order -> int)
    requires forall i :: 0 <= i < |s| ==> f(s[i]) <= 1
    ensures Sum(s, f) <= |s|
  {
    if |s| > 0 {
      SumAtMostLength(s[..|s| - 1], f);
    }
  }

  lemma LongBookReach(price: nat, n: nat)
    requires n > 0
    ensures Reach(LongBook(price, n), n) <= BOOK_LIMIT
  {
    var p := LoopStart(LongBook(price, n), n);
    var ids := Opponents(p.db, n);
    FetchSpec(p.db.orders, 0, Sell);
    forall i | 0 <= i < |ids| ensures Offer(p.taker)(Rows(p.db.orders, ids)[i]) <= 1 {
      assert InBook(p.db.orders, 0, Sell, ids[i]);
    }
    SumAtMostLength(Rows(p.db.orders, ids), Offer(p.taker));
  }

  /** Past a hundred asks the job runs out of orders it can see, and the bid rests crossed with the others. */
  lemma LongBookEndsCrossed(price: nat, n: nat, mode: Mode)
    requires n > BOOK_LIMIT && 0 < price <= FEE_SAFE_PRICE
    ensures Sound(LongBook(price, n)) && Uncrossed(LongBook(price, n), 0)
    ensures !Uncrossed(MatchJob(LongBook(price, n), mode, n).db, 0)
  {
    var db := LongBook(price, n);
    LongBookSound(price, n);
    LongBookReach(price, n);
    FetchSpec(LoopStart(db, n).db.orders, 0, Sell);
    var other := Missing(Opponents(LoopStart(db, n).db, n), n);
    assert CrossesBeyond(db, n, other);
    JobKeepsUncrossedIff(db, mode, n);
  }
}
