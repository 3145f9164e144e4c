/** The order book query, one trade, the matching loop and the matching job. */
module Matching {
  import opened Sums
  import opened Amounts
  import opened Ledger
  import opened Exchange

  // ---- The book ----

  /**
   * Strict price priority in the ORDER BY of the book query: bids by price descending, asks
   * ascending. A missing price sorts above every price, so it leads the bids and trails the asks.
   */
  predicate Ahead(side: Side, a: Option<nat>, b: Option<nat>) {
    match side
    case Buy => b.Some? && (a.None? || a.value > b.value)
    case Sell => a.Some? && (b.None? || a.value < b.value)
  }

  predicate InBook(orders: seq<Order>, pair: nat, side: Side, id: nat) {
    id < |orders| && orders[id].pair == pair && orders[id].side == side && Resting(orders[id].status)
  }

  /** Price first, creation second. */
  predicate Precedes(orders: seq<Order>, side: Side, i: nat, j: nat)
    requires i < |orders| && j < |orders|
  {
    || Ahead(side, orders[i].price, orders[j].price)
    || (!Ahead(side, orders[j].price, orders[i].price) && i < j)
  }

  function Insert(orders: seq<Order>, side: Side, id: nat, ids: seq<nat>): seq<nat>
    requires id < |orders| && forall i :: 0 <= i < |ids| ==> ids[i] < |orders|
  {
    if ids == [] || Precedes(orders, side, id, ids[0]) then [id] + ids
    else [ids[0]] + Insert(orders, side, id, ids[1..])
  }

  /** One row more: it joins the sorted list when it is in the book. */
  function Enter(orders: seq<Order>, pair: nat, side: Side, id: nat, ids: seq<nat>): (ids': seq<nat>)
    requires id < |orders| && forall i :: 0 <= i < |ids| ==> ids[i] < id
    ensures forall i :: 0 <= i < |ids'| ==> ids'[i] <= id
  {
    if InBook(orders, pair, side, id) then
      InsertMembers(orders, side, id, ids);
      var ids' := Insert(orders, side, id, ids);
      assert forall i :: 0 <= i < |ids'| ==> ids'[i] in ids';
      ids'
    else ids
  }

  /** getOpenOrdersForPair without its LIMIT, over the first n rows. */
  function BookUpTo(orders: seq<Order>, pair: nat, side: Side, n: nat): (ids: seq<nat>)
    requires n <= |orders|
    ensures forall i :: 0 <= i < |ids| ==> ids[i] < n
  {
    if n == 0 then [] else Enter(orders, pair, side, n - 1, BookUpTo(orders, pair, side, n - 1))
  }

  function Book(orders: seq<Order>, pair: nat, side: Side): (ids: seq<nat>)
    ensures forall i :: 0 <= i < |ids| ==> ids[i] < |orders|
  {
    BookUpTo(orders, pair, side, |orders|)
  }

  const BOOK_LIMIT: nat := 100

  function Fetch(orders: seq<Order>, pair: nat, side: Side): (ids: seq<nat>)
    ensures forall i :: 0 <= i < |ids| ==> ids[i] < |orders|
  {
    var ids := Book(orders, pair, side);
    if |ids| <= BOOK_LIMIT then ids else ids[..BOOK_LIMIT]
  }

  lemma {:induction false} InsertMembers(orders: seq<Order>, side: Side, id: nat, ids: seq<nat>)
    requires id < |orders| && forall i :: 0 <= i < |ids| ==> ids[i] < |orders|
    ensures forall x :: x in Insert(orders, side, id, ids) <==> x == id || x in ids
    ensures multiset(Insert(orders, side, id, ids)) == multiset(ids) + multiset{id}
  {
    if ids != [] {
      assert ids == [ids[0]] + ids[1..];
      if !Precedes(orders, side, id, ids[0]) {
        InsertMembers(orders, side, id, ids[1..]);
      }
    }
  }

  // ---- Matching ----

  predicate CanMatch(taker: Order, maker: Order) {
    || taker.kind == Market
    || (&& taker.price.Some? && maker.price.Some?
        && if taker.side == Buy then taker.price.value >= maker.price.value
           else taker.price.value <= maker.price.value)
  }

  /**
   * carryFill: a second fill of one job adds to the taker's first. The code keeps adding to the fill
   * count read before the job. atomicTrade: a refused balance write undoes the trade. The code sends
   * BEGIN and ROLLBACK on a connection that none of the writes use.
   */
  datatype Mode = Mode(carryFill: bool, atomicTrade: bool)

  const AS_WRITTEN := Mode(false, false)
  const AS_DOCUMENTED := Mode(true, true)

  function TradeRow(takerId: nat, taker: Order, makerId: nat, maker: Order, price: nat, quantity: nat): Trade {
    var fee := Fee(quantity, price);
    if taker.side == Buy
    then Trade(taker.pair, takerId, makerId, taker.user, maker.user, price, quantity, fee, fee)
    else Trade(taker.pair, makerId, takerId, maker.user, taker.user, price, quantity, fee, fee)
  }

  /** The four balance updates, in the order in which they are written. */
  function TradeChanges(p: Pair, t: Trade): seq<Change> {
    var base: int, quote: int := t.quantity, Quote(t.quantity, t.price);
    [ Change(Account(t.seller, p.base), 0, -base),
      Change(Account(t.seller, p.quote), quote - t.sellerFee, 0),
      Change(Account(t.buyer, p.quote), 0, -quote),
      Change(Account(t.buyer, p.base), base - t.buyerFee, 0) ]
  }

  /** updateOrderStatus(id, status, filledQuantity) with the count computed from the snapshot. */
  function RecordFill(row: Order, snapshot: Order, quantity: nat): Order {
    var filled := snapshot.filled + quantity;
    row.(filled := filled, status := if filled == snapshot.quantity then Filled else Partial)
  }

  /** executeTrade on snapshots of the two orders. */
  function ExecuteTrade(
    db: Db, mode: Mode, takerId: nat, taker: Order, makerId: nat, maker: Order, quantity: int): Outcome
    requires takerId < |db.orders| && makerId < |db.orders| && taker.pair < |db.pairs|
  {
    // A missing price cannot be read as a number; the trades table wants both numbers positive.
    if maker.price.None? || maker.price.value == 0 || quantity <= 0 then Outcome(db, false)
    else
      var trade := TradeRow(takerId, taker, makerId, maker, maker.price.value, quantity);
      var posted := Post(db.balances, TradeChanges(db.pairs[taker.pair], trade));
      var db' := db.(trades := db.trades + [trade], balances := posted.balances);
      if !posted.ok then Outcome(if mode.atomicTrade then db else db', false)
      else
        var orders := db.orders[takerId := RecordFill(db.orders[takerId], taker, quantity)];
        var orders' := orders[makerId := RecordFill(orders[makerId], maker, quantity)];
        Outcome(db'.(orders := orders'), true)
  }

  /** The variables of the matching loop. */
  datatype Progress = Progress(db: Db, taker: Order, remaining: int, executed: nat)

  predicate LoopReady(p: Progress, takerId: nat, snapshot: seq<Order>, ids: seq<nat>) {
    && |p.db.orders| == |snapshot| && takerId < |snapshot| && p.taker.pair < |p.db.pairs|
    && forall i :: 0 <= i < |ids| ==> ids[i] < |snapshot|
  }

  /** One turn of the loop that does not break. */
  function MatchOne(p: Progress, mode: Mode, takerId: nat, makerId: nat, maker: Order): (p': Progress)
    requires takerId < |p.db.orders| && makerId < |p.db.orders| && p.taker.pair < |p.db.pairs|
    ensures |p'.db.orders| == |p.db.orders| && p'.db.pairs == p.db.pairs && p'.taker.pair == p.taker.pair
  {
    if !CanMatch(p.taker, maker) then p
    else
      var quantity := Min(p.remaining, Remaining(maker));
      var traded := ExecuteTrade(p.db, mode, takerId, p.taker, makerId, maker, quantity);
      if !traded.ok then p.(db := traded.db)
      else
        var taker := if mode.carryFill then p.taker.(filled := p.taker.filled + quantity) else p.taker;
        Progress(traded.db, taker, p.remaining - quantity, p.executed + 1)
  }

  function MatchLoop(p: Progress, mode: Mode, takerId: nat, snapshot: seq<Order>, ids: seq<nat>): (p': Progress)
    requires LoopReady(p, takerId, snapshot, ids)
    ensures |p'.db.orders| == |p.db.orders| && p'.db.pairs == p.db.pairs
    decreases |ids|
  {
    if ids == [] || p.remaining == 0 then p
    else MatchLoop(MatchOne(p, mode, takerId, ids[0], snapshot[ids[0]]), mode, takerId, snapshot, ids[1..])
  }

  predicate Matchable(db: Db, id: nat) {
    && id < |db.orders| && Live(db.orders[id].status)
    && db.orders[id].pair < |db.pairs| && db.pairs[db.orders[id].pair].active
  }

  function SetStatus(orders: seq<Order>, id: nat, status: OrderStatus): seq<Order>
    requires id < |orders|
  {
    orders[id := orders[id].(status := status)]
  }

  /** The state in which the loop starts: a PENDING_MATCH order has been opened. */
  function LoopStart(db: Db, id: nat): Progress
    requires Matchable(db, id)
  {
    var db' := if db.orders[id].status == PendingMatch then db.(orders := SetStatus(db.orders, id, Open)) else db;
    Progress(db', db'.orders[id], Remaining(db'.orders[id]), 0)
  }

  function Opponents(db: Db, id: nat): seq<nat>
    requires id < |db.orders|
  {
    Fetch(db.orders, db.orders[id].pair, Opposite(db.orders[id].side))
  }

  function LoopEnd(db: Db, mode: Mode, id: nat): (p': Progress)
    requires Matchable(db, id)
    ensures |p'.db.orders| == |db.orders| && p'.db.pairs == db.pairs
  {
    var p := LoopStart(db, id);
    MatchLoop(p, mode, id, p.db.orders, Opponents(p.db, id))
  }

  /** The status write after the loop. */
  function Finish(db: Db, id: nat, quantity: nat, remaining: int): Db
    requires id < |db.orders|
  {
    if remaining == 0 then db.(orders := SetStatus(db.orders, id, Filled))
    else if remaining < quantity then db.(orders := SetStatus(db.orders, id, Partial))
    else db
  }

  /** processMatchingJob and executeMatching. */
  function MatchJob(db: Db, mode: Mode, id: nat): (r: Outcome)
    ensures |r.db.orders| == |db.orders| && r.db.pairs == db.pairs
  {
    if id >= |db.orders| then Outcome(db, false)
    else
      var o := db.orders[id];
      if !Live(o.status) then Outcome(db, true)
      else if o.pair >= |db.pairs| then Outcome(db, false)
      else if !db.pairs[o.pair].active then Outcome(db.(orders := SetStatus(db.orders, id, Cancelled)), true)
      else
        var p := LoopEnd(db, mode, id);
        Outcome(Finish(p.db, id, o.quantity, p.remaining), true)
  }

  const REMATCH_LIMIT: nat := 10

  /** scheduleOpposingMatches: the opposing orders for which a matching job is queued. */
  function Rematches(db: Db, id: nat): seq<nat>
    requires id < |db.orders|
  {
    var ids := Willing(db.orders, db.orders[id], Opponents(db, id));
    if |ids| <= REMATCH_LIMIT then ids else ids[..REMATCH_LIMIT]
  }

  function Willing(orders: seq<Order>, maker: Order, ids: seq<nat>): (r: seq<nat>)
    requires forall i :: 0 <= i < |ids| ==> ids[i] < |orders|
    ensures forall i :: 0 <= i < |r| ==> r[i] in ids && r[i] < |orders| && CanMatch(orders[r[i]], maker)
  {
    if ids == [] then []
    else if CanMatch(orders[ids[0]], maker) then [ids[0]] + Willing(orders, maker, ids[1..])
    else Willing(orders, maker, ids[1..])
  }
}
