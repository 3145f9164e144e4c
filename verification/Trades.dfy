/** What one executed trade does to every account, and when it is refused. */
module Trades {
  import opened Amounts
  import opened Ledger
  import opened Exchange
  import opened Matching

  /** The snapshot carries everything but the status of its row. */
  ghost predicate Snapshot(row: Order, snapshot: Order) {
    snapshot.(status := row.status) == row
  }

  /** A trade that the loop may select: two opposing resting orders of one pair and a quantity both still have. */
  ghost predicate Selected(db: Db, takerId: nat, taker: Order, makerId: nat, maker: Order, quantity: int) {
    && takerId < |db.orders| && makerId < |db.orders| && takerId != makerId
    && Snapshot(db.orders[takerId], taker) && db.orders[makerId] == maker
    && taker.pair == maker.pair < |db.pairs| && taker.side == Opposite(maker.side)
    && Resting(db.orders[takerId].status) && Resting(maker.status)
    && quantity <= Remaining(taker) && quantity <= Remaining(maker)
  }

  ghost function Buyer(taker: Order, maker: Order): Order {
    if taker.side == Buy then taker else maker
  }

  ghost function Seller(taker: Order, maker: Order): Order {
    if taker.side == Buy then maker else taker
  }

  /** The three balances that a trade may find short suffice: the seller's proceeds always cover the seller's fee. */
  ghost predicate Covered(b: Balances, p: Pair, buyer: UserId, seller: UserId, quantity: int, price: nat)
    requires quantity >= 0
  {
    && quantity <= Read(b, Account(seller, p.base)).locked
    && Quote(quantity, price) <= Read(b, Account(buyer, p.quote)).locked
    && Fee(quantity, price) <= Read(b, Account(buyer, p.base)).available + quantity
  }

  /**
   * A trade between distinct tokens is refused exactly when its numbers are not positive or one of the
   * balances is short. The seller's proceeds always cover the seller's fee.
   */
  lemma TradeRefusedIff(db: Db, mode: Mode, takerId: nat, taker: Order, makerId: nat, maker: Order, quantity: int)
    requires takerId < |db.orders| && makerId < |db.orders| && taker.pair < |db.pairs|
    requires db.pairs[taker.pair].base != db.pairs[taker.pair].quote
    ensures ExecuteTrade(db, mode, takerId, taker, makerId, maker, quantity).ok
       <==> && quantity > 0 && maker.price.Some? && maker.price.value > 0
            && Covered(db.balances, db.pairs[taker.pair], Buyer(taker, maker).user, Seller(taker, maker).user,
                       quantity, maker.price.value)
  {
    if maker.price.Some? && quantity > 0 {
      var p := db.pairs[taker.pair];
      var t := TradeRow(takerId, taker, makerId, maker, maker.price.value, quantity);
      PostFour(db.balances, p, t);
    }
  }

  lemma PostFour(b: Balances, p: Pair, t: Trade)
    requires t.buyerFee == t.sellerFee == Fee(t.quantity, t.price)
    requires p.base != p.quote
    ensures Post(b, TradeChanges(p, t)).ok <==> Covered(b, p, t.buyer, t.seller, t.quantity, t.price)
  {
    var c := TradeChanges(p, t);
    PostsFour(b, c[0], c[1], c[2], c[3]);
    assert c == [c[0], c[1], c[2], c[3]];
    var b1 := Written(b, c[0]);
    var b2 := Written(b1, c[1]);
    var b3 := Written(b2, c[2]);
    assert Refused(b, c[0]) <==> t.quantity > Read(b, c[0].account).locked;
    if !Refused(b, c[0]) {
      assert !Refused(b1, c[1]);
      assert Read(b2, c[2].account).locked == Read(b, c[2].account).locked;
      assert Read(b3, c[3].account).available == Read(b, c[3].account).available;
    }
  }

  /** An executed trade, account by account: correct even when buyer and seller are one user. */
  lemma TradeMoves(
    db: Db, mode: Mode, takerId: nat, taker: Order, makerId: nat, maker: Order, quantity: int, a: Account)
    requires takerId < |db.orders| && makerId < |db.orders| && taker.pair < |db.pairs|
    requires ExecuteTrade(db, mode, takerId, taker, makerId, maker, quantity).ok
    ensures
      var p, price := db.pairs[taker.pair], maker.price.value;
      var quote, fee := Quote(quantity, price), Fee(quantity, price);
      var before := Read(db.balances, a);
      var after := Read(ExecuteTrade(db, mode, takerId, taker, makerId, maker, quantity).db.balances, a);
      var buyer, seller := Buyer(taker, maker).user, Seller(taker, maker).user;
      && after.locked == before.locked
                         - (if a == Account(seller, p.base) then quantity else 0)
                         - (if a == Account(buyer, p.quote) then quote else 0)
      && after.available == before.available
                            + (if a == Account(seller, p.quote) then quote - fee else 0)
                            + (if a == Account(buyer, p.base) then quantity - fee else 0)
  {
    var p := db.pairs[taker.pair];
    var c := TradeChanges(p, TradeRow(takerId, taker, makerId, maker, maker.price.value, quantity));
    PostAddsNet(db.balances, c, a);
    FourNets(c[0], c[1], c[2], c[3], a);
  }

  lemma FourNets(x: Change, y: Change, z: Change, w: Change, a: Account)
    ensures NetAvailable([x, y, z, w], a) == (if x.account == a then x.available else 0)
                                           + (if y.account == a then y.available else 0)
                                           + (if z.account == a then z.available else 0)
                                           + (if w.account == a then w.available else 0)
    ensures NetLocked([x, y, z, w], a) == (if x.account == a then x.locked else 0)
                                        + (if y.account == a then y.locked else 0)
                                        + (if z.account == a then z.locked else 0)
                                        + (if w.account == a then w.locked else 0)
    ensures NetOfToken([x, y, z, w], a.token) == (if x.account.token == a.token then x.available + x.locked else 0)
                                               + (if y.account.token == a.token then y.available + y.locked else 0)
                                               + (if z.account.token == a.token then z.available + z.locked else 0)
                                               + (if w.account.token == a.token then w.available + w.locked else 0)
  {
    NetFirst(x, [y, z, w], a);
    NetFirst(y, [z, w], a);
    NetFirst(z, [w], a);
    NetFirst(w, [], a);
    assert [x] + [y, z, w] == [x, y, z, w] && [y] + [z, w] == [y, z, w] && [z] + [w] == [z, w];
  }

  lemma NetFirst(x: Change, rest: seq<Change>, a: Account)
    ensures NetAvailable([x] + rest, a) == (if x.account == a then x.available else 0) + NetAvailable(rest, a)
    ensures NetLocked([x] + rest, a) == (if x.account == a then x.locked else 0) + NetLocked(rest, a)
    ensures NetOfToken([x] + rest, a.token)
         == (if x.account.token == a.token then x.available + x.locked else 0) + NetOfToken(rest, a.token)
  {
    assert ([x] + rest)[1..] == rest;
  }
}
