/** The matching job serves makers in strict priority, and no other choice of makers has a better price. */
module Greedy {
  import opened Sums
  import opened Exchange
  import opened Matching
  import opened OrderBook
  import opened Solvency
  import opened Jobs
  import opened Allocation
  import opened Fills

  /** A fetched list: best first, everything with a quantity left, prices positive, bids priced. */
  ghost predicate Listed(taker: Order, makers: seq<Order>) {
    && HaveRemaining(makers)
    && (forall i, j :: 0 <= i < j < |makers| ==> !Ahead(Opposite(taker.side), makers[j].price, makers[i].price))
    && (forall i :: 0 <= i < |makers| && makers[i].price.Some? ==> makers[i].price.value > 0)
    && (taker.side == Sell ==> forall i :: 0 <= i < |makers| ==> makers[i].price.Some?)
  }

  lemma TradableAhead(taker: Order, makers: seq<Order>, i: nat, j: nat)
    requires Listed(taker, makers) && i < j < |makers| && Tradable(taker, makers[j])
    ensures Tradable(taker, makers[i])
  {
  }

  /** A maker gets a share only after every maker ahead of it has been completely filled. */
  lemma {:induction false} StrictPriority(taker: Order, makers: seq<Order>, remaining: nat, i: nat, j: nat)
    requires Listed(taker, makers) && i < j < |makers| && Allocate(taker, makers, remaining)[j] > 0
    ensures Allocate(taker, makers, remaining)[i] == Remaining(makers[i])
  {
    var offer := Offer(taker);
    AllocateIsWaterfall(taker, makers, remaining, i);
    AllocateIsWaterfall(taker, makers, remaining, j);
    TradableAhead(taker, makers, i, j);
    OffersAdd(makers, offer, i, j);
  }

  lemma OffersAdd(makers: seq<Order>, offer: Order -> int, i: nat, j: nat)
    requires i < j <= |makers| && forall k :: 0 <= k < |makers| ==> offer(makers[k]) >= 0
    ensures Sum(makers[..j], offer) >= Sum(makers[..i], offer) + offer(makers[i])
  {
    assert makers[..j] == makers[..i] + [makers[i]] + makers[i + 1..j];
    SumAppend(makers[..i], makers[i], offer);
    SumConcat(makers[..i] + [makers[i]], makers[i + 1..j], offer);
    SumNonNegative(makers[i + 1..j], offer);
  }

  // ---- Price optimality ----

  /** Prices seen from the taker: the smaller the better. */
  function Key(taker: Order, maker: Order): int {
    if maker.price.None? then 0 else if taker.side == Buy then maker.price.value else -(maker.price.value as int)
  }

  function KeyCost(taker: Order, makers: seq<Order>, shares: seq<int>): int
    requires |makers| == |shares|
  {
    if makers == [] then 0 else shares[0] * Key(taker, makers[0]) + KeyCost(taker, makers[1..], shares[1..])
  }

  /** Shares that could be taken from the list: no more than a maker has, and only at a price. */
  ghost predicate Feasible(makers: seq<Order>, shares: seq<int>) {
    && |shares| == |makers|
    && forall i :: 0 <= i < |makers| ==>
         0 <= shares[i] <= Remaining(makers[i]) && (shares[i] > 0 ==> makers[i].price.Some?)
  }

  /** p separates the makers that are used from those that still have something. */
  ghost predicate Separates(taker: Order, makers: seq<Order>, shares: seq<int>, p: int)
    requires |makers| == |shares|
  {
    forall i :: 0 <= i < |makers| ==>
      && (shares[i] > 0 ==> Key(taker, makers[i]) <= p)
      && (makers[i].price.Some? && shares[i] < Remaining(makers[i]) ==> p <= Key(taker, makers[i]))
  }

  /** Exchange argument: against separated shares, moving volume to other makers cannot lower the cost. */
  lemma {:induction false} ExchangeArgument(
    taker: Order, makers: seq<Order>, shares: seq<int>, others: seq<int>, p: int)
    requires Feasible(makers, shares) && Feasible(makers, others) && Separates(taker, makers, shares, p)
    ensures KeyCost(taker, makers, shares) - p * Total(shares) <= KeyCost(taker, makers, others) - p * Total(others)
  {
    if makers != [] {
      assert Feasible(makers[1..], shares[1..]) && Feasible(makers[1..], others[1..]);
      assert Separates(taker, makers[1..], shares[1..], p);
      ExchangeArgument(taker, makers[1..], shares[1..], others[1..], p);
      ExchangeTerm(shares[0], others[0], Key(taker, makers[0]), p);
      Distributes(p, shares[0], Total(shares[1..]));
      Distributes(p, others[0], Total(others[1..]));
    }
  }

  lemma Distributes(p: int, a: int, b: int)
    ensures p * (a + b) == p * a + p * b
  {
  }

  lemma ExchangeTerm(share: int, other: int, key: int, p: int)
    requires share > other ==> key <= p
    requires share < other ==> p <= key
    ensures share * key - p * share <= other * key - p * other
  {
    if share >= other {
      ProductSign(share - other, p - key);
    } else {
      ProductSign(other - share, key - p);
    }
    assert share * key - p * share - (other * key - p * other) == (share - other) * (key - p);
    assert (share - other) * (key - p) == -((share - other) * (p - key)) == -((other - share) * (key - p));
  }

  lemma ProductSign(a: int, b: int)
    ensures a >= 0 && b >= 0 ==> a * b >= 0
    ensures a == 0 ==> a * b == 0
  {
  }

  lemma AllocationFeasible(taker: Order, makers: seq<Order>, remaining: nat)
    requires Listed(taker, makers)
    ensures Feasible(makers, Allocate(taker, makers, remaining))
  {
    forall i | 0 <= i < |makers|
      ensures 0 <= Allocate(taker, makers, remaining)[i] <= Remaining(makers[i])
      ensures Allocate(taker, makers, remaining)[i] > 0 ==> Tradable(taker, makers[i])
    {
      AllocateIsWaterfall(taker, makers, remaining, i);
    }
  }

  lemma {:induction false} LastUsed(shares: seq<int>) returns (last: nat)
    requires exists i :: 0 <= i < |shares| && shares[i] > 0
    ensures last < |shares| && shares[last] > 0 && forall i :: last < i < |shares| ==> shares[i] <= 0
  {
    last := |shares| - 1;
    if shares[last] <= 0 {
      var i :| 0 <= i < |shares| && shares[i] > 0;
      assert shares[..last][i] > 0;
      last := LastUsed(shares[..last]);
    }
  }

  /** The price of the last maker used separates the allocation. */
  lemma LastUsedSeparates(taker: Order, makers: seq<Order>, remaining: nat, last: nat)
    requires Listed(taker, makers) && last < |makers| && Allocate(taker, makers, remaining)[last] > 0
    requires forall i :: last < i < |makers| ==> Allocate(taker, makers, remaining)[i] <= 0
    ensures Separates(taker, makers, Allocate(taker, makers, remaining), Key(taker, makers[last]))
  {
    var shares := Allocate(taker, makers, remaining);
    AllocationFeasible(taker, makers, remaining);
    forall i | 0 <= i < |makers|
      ensures shares[i] > 0 ==> Key(taker, makers[i]) <= Key(taker, makers[last])
      ensures makers[i].price.Some? && shares[i] < Remaining(makers[i])
              ==> Key(taker, makers[last]) <= Key(taker, makers[i])
    {
      if i < last {
        StrictPriority(taker, makers, remaining, i, last);
      }
    }
  }

  lemma {:induction false} UnusedIsFree(taker: Order, makers: seq<Order>, shares: seq<int>)
    requires |makers| == |shares| && forall i :: 0 <= i < |shares| ==> shares[i] == 0
    ensures KeyCost(taker, makers, shares) == 0 && Total(shares) == 0
  {
    if makers != [] {
      UnusedIsFree(taker, makers[1..], shares[1..]);
    }
  }

  lemma {:induction false} NoVolume(shares: seq<int>)
    requires Total(shares) == 0 && forall i :: 0 <= i < |shares| ==> shares[i] >= 0
    ensures forall i :: 0 <= i < |shares| ==> shares[i] == 0
  {
    if shares != [] {
      TotalNonNegative(shares[1..]);
      NoVolume(shares[1..]);
    }
  }

  lemma {:induction false} TotalNonNegative(shares: seq<int>)
    requires forall i :: 0 <= i < |shares| ==> shares[i] >= 0
    ensures Total(shares) >= 0
  {
    if shares != [] {
      TotalNonNegative(shares[1..]);
    }
  }

  /** No other way of taking the same volume from the list is better for the taker. */
  lemma AllocationIsOptimal(taker: Order, makers: seq<Order>, remaining: nat, others: seq<int>)
    requires Listed(taker, makers) && Feasible(makers, others)
    requires Total(others) == Total(Allocate(taker, makers, remaining))
    ensures KeyCost(taker, makers, Allocate(taker, makers, remaining)) <= KeyCost(taker, makers, others)
  {
    var shares := Allocate(taker, makers, remaining);
    AllocationFeasible(taker, makers, remaining);
    if exists i :: 0 <= i < |shares| && shares[i] > 0 {
      var last := LastUsed(shares);
      LastUsedSeparates(taker, makers, remaining, last);
      ExchangeArgument(taker, makers, shares, others, Key(taker, makers[last]));
    } else {
      UnusedIsFree(taker, makers, shares);
      NoVolume(others);
      UnusedIsFree(taker, makers, others);
    }
  }

  // ---- The job ----

  function Value(): Trade -> int {
    (t: Trade) => t.quantity * t.price
  }

  function Volume(): Trade -> int {
    (t: Trade) => t.quantity
  }

  /** What a choice of shares trades at the makers' prices. */
  function ShareValue(makers: seq<Order>, shares: seq<int>): int
    requires |makers| == |shares|
  {
    if makers == [] then 0
    else (if makers[0].price.Some? then shares[0] * makers[0].price.value else 0) + ShareValue(makers[1..], shares[1..])
  }

  lemma {:induction false} KeyCostIsValue(taker: Order, makers: seq<Order>, shares: seq<int>)
    requires |makers| == |shares|
    ensures KeyCost(taker, makers, shares)
         == if taker.side == Buy then ShareValue(makers, shares) else -ShareValue(makers, shares)
  {
    if makers != [] {
      KeyCostIsValue(taker, makers[1..], shares[1..]);
    }
  }

  lemma {:induction false} PrintedTotals(
    takerId: nat, taker: Order, ids: seq<nat>, makers: seq<Order>, shares: seq<int>)
    requires |ids| == |makers| && Feasible(makers, shares)
    ensures Sum(Printed(takerId, taker, ids, makers, shares), Value()) == ShareValue(makers, shares)
    ensures Sum(Printed(takerId, taker, ids, makers, shares), Volume()) == Total(shares)
  {
    if ids != [] {
      PrintedTotals(takerId, taker, ids[1..], makers[1..], shares[1..]);
      var rest := Printed(takerId, taker, ids[1..], makers[1..], shares[1..]);
      if shares[0] > 0 {
        var t := TradeRow(takerId, taker, ids[0], makers[0], makers[0].price.value, shares[0]);
        SumFirst(t, rest, Value());
        SumFirst(t, rest, Volume());
      } else {
        assert Printed(takerId, taker, ids, makers, shares) == [] + rest;
        assert [] + rest == rest;
      }
    }
  }

  lemma FetchedIsListed(db: Db, id: nat)
    requires Sound(db) && Capped(db) && Matchable(db, id)
    ensures Listed(db.orders[id], Fetched(db, id)) && Listed(Taker(db, id), Fetched(db, id))
  {
    var p := LoopStart(db, id);
    var ids := Opponents(p.db, id);
    LoopStartInv(db, id);
    LoopHasRemaining(p, id, p.db.orders, ids);
    FetchSpec(p.db.orders, p.taker.pair, Opposite(p.taker.side));
    forall i | 0 <= i < |ids|
      ensures p.db.orders[ids[i]].price.Some? ==> p.db.orders[ids[i]].price.value > 0
      ensures p.taker.side == Sell ==> p.db.orders[ids[i]].price.Some?
    {
      assert OrderOk(p.db.pairs, p.db.orders[ids[i]]) && MakerUntouched(p, p.db.orders, ids[i]);
    }
    forall i, j | 0 <= i < j < |ids|
      ensures !Ahead(Opposite(p.taker.side), p.db.orders[ids[j]].price, p.db.orders[ids[i]].price)
    {
      assert Precedes(p.db.orders, Opposite(p.taker.side), ids[i], ids[j]);
    }
  }

  /**
   * Price optimality of a whole job: a BUY pays no more, and a SELL receives no less, than under any
   * other way of taking the volume it traded from the orders it fetched. In any mode; a MARKET BUY
   * whose lock does not cover its job may have to pass over a better price.
   */
  lemma JobIsPriceOptimal(db: Db, mode: Mode, id: nat, others: seq<int>)
    requires Sound(db) && Capped(db) && Matchable(db, id)
    requires MarketBuy(db.orders[id]) ==> LockCovers(db, id)
    requires Feasible(Fetched(db, id), others)
    requires Total(others) == Sum(MatchJob(db, mode, id).db.trades, Volume()) - Sum(db.trades, Volume())
    ensures
      var value := Sum(MatchJob(db, mode, id).db.trades, Value()) - Sum(db.trades, Value());
      if db.orders[id].side == Buy then value <= ShareValue(Fetched(db, id), others)
      else value >= ShareValue(Fetched(db, id), others)
  {
    var taker, makers := Taker(db, id), Fetched(db, id);
    JobTradesWanted(db, mode, id);
    FetchedIsListed(db, id);
    JobHasRemaining(db, id);
    TradesAreOptimal(db.trades, id, taker, Opponents(LoopStart(db, id).db, id), makers, Remaining(taker), others);
  }

  lemma JobTradesWanted(db: Db, mode: Mode, id: nat)
    requires Sound(db) && Capped(db) && Matchable(db, id)
    requires MarketBuy(db.orders[id]) ==> LockCovers(db, id)
    ensures
      var makers, ids := Fetched(db, id), Opponents(LoopStart(db, id).db, id);
      && |ids| == |makers| == |Wanted(db, id)| && Shares(db, mode.atomicTrade, id) == Wanted(db, id)
      && MatchJob(db, mode, id).db.trades == db.trades + Printed(id, Taker(db, id), ids, makers, Wanted(db, id))
  {
    WantedIsShares(db, mode.atomicTrade, id);
    JobTrades(db, mode, id);
  }

  lemma TradesAreOptimal(
    trades: seq<Trade>, id: nat, taker: Order, ids: seq<nat>, makers: seq<Order>, remaining: nat, others: seq<int>)
    requires |ids| == |makers| && Listed(taker, makers) && Feasible(makers, others)
    requires
      var printed := Printed(id, taker, ids, makers, Allocate(taker, makers, remaining));
      Total(others) == Sum(trades + printed, Volume()) - Sum(trades, Volume())
    ensures
      var printed := Printed(id, taker, ids, makers, Allocate(taker, makers, remaining));
      var value := Sum(trades + printed, Value()) - Sum(trades, Value());
      if taker.side == Buy then value <= ShareValue(makers, others) else value >= ShareValue(makers, others)
  {
    var shares := Allocate(taker, makers, remaining);
    AllocationFeasible(taker, makers, remaining);
    PrintedTotals(id, taker, ids, makers, shares);
    SumConcat(trades, Printed(id, taker, ids, makers, shares), Value());
    SumConcat(trades, Printed(id, taker, ids, makers, shares), Volume());
    AllocationIsOptimal(taker, makers, remaining, others);
    KeyCostIsValue(taker, makers, shares);
    KeyCostIsValue(taker, makers, others);
  }
}
