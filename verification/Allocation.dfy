/** Which makers the matching loop fills and how far, as a function of the fetched list alone. */
module Allocation {
  import opened Sums
  import opened Amounts
  import opened Ledger
  import opened Exchange
  import opened Matching
  import opened OrderBook
  import opened Trades
  import opened Solvency
  import opened Jobs

  // ---- Shares ----

  predicate Tradable(taker: Order, maker: Order) {
    CanMatch(taker, maker) && maker.price.Some? && maker.price.value > 0
  }

  /** What a maker gives when nothing limits what the taker pays. */
  function Fill(taker: Order, maker: Order, remaining: int): int {
    if Tradable(taker, maker) then Min(remaining, Remaining(maker)) else 0
  }

  /** What the loop gives to each maker of the list, in its own order of work. */
  function Allocate(taker: Order, makers: seq<Order>, remaining: int): (r: seq<int>)
    ensures |r| == |makers|
  {
    if makers == [] then []
    else
      var share := Fill(taker, makers[0], remaining);
      [share] + Allocate(taker, makers[1..], remaining - share)
  }

  /** What a BUY taker pays for a share. */
  function Cost(taker: Order, maker: Order, share: int): nat {
    if taker.side == Buy && maker.price.Some? && share > 0 then Quote(share, maker.price.value) else 0
  }

  /** A share that costs more than is still locked is refused. */
  function Share(taker: Order, maker: Order, remaining: int, budget: nat): (share: int)
    ensures Cost(taker, maker, share) <= budget
  {
    var full := Fill(taker, maker, remaining);
    if Cost(taker, maker, full) <= budget then full else 0
  }

  /** What the loop gives to each maker when it passes over trades that are refused. */
  function Afford(taker: Order, makers: seq<Order>, remaining: int, budget: nat): (r: seq<int>)
    ensures |r| == |makers|
  {
    if makers == [] then []
    else
      var share := Share(taker, makers[0], remaining, budget);
      [share] + Afford(taker, makers[1..], remaining - share, budget - Cost(taker, makers[0], share))
  }

  function Total(shares: seq<int>): int {
    if shares == [] then 0 else shares[0] + Total(shares[1..])
  }

  /** How many shares are fills. */
  function Positives(shares: seq<int>): nat {
    if shares == [] then 0 else (if shares[0] > 0 then 1 else 0) + Positives(shares[1..])
  }

  function Paid(taker: Order, makers: seq<Order>, shares: seq<int>): nat
    requires |makers| == |shares|
  {
    if makers == [] then 0 else Cost(taker, makers[0], shares[0]) + Paid(taker, makers[1..], shares[1..])
  }

  /** The reference: volume standing in front of a maker is served first, and what is left flows on. */
  function Offer(taker: Order): Order -> int {
    (maker: Order) => if Tradable(taker, maker) then Remaining(maker) else 0
  }

  function Clamp(x: int, low: int, high: int): int {
    Max(low, Min(x, high))
  }

  ghost predicate HaveRemaining(makers: seq<Order>) {
    forall i :: 0 <= i < |makers| ==> Remaining(makers[i]) > 0
  }

  lemma SumFirst<T>(x: T, s: seq<T>, f: T -> int)
    ensures Sum([x] + s, f) == f(x) + Sum(s, f)
  {
    SumConcat([x], s, f);
    assert [x][..0] == [];
  }

  /**
   * The loop's shares in closed form: a maker gets what the offers ahead of it leave, up to what it
   * has.
   */
  lemma {:induction false} AllocateIsWaterfall(taker: Order, makers: seq<Order>, remaining: nat, i: nat)
    requires HaveRemaining(makers) && i < |makers|
    ensures Allocate(taker, makers, remaining)[i]
         == Clamp(remaining - Sum(makers[..i], Offer(taker)), 0, Offer(taker)(makers[i]))
    decreases |makers|
  {
    var offer := Offer(taker);
    var m, rest := makers[0], makers[1..];
    var share := Fill(taker, m, remaining);
    assert share == Min(remaining, offer(m));
    if i == 0 {
      assert makers[..0] == [];
    } else {
      AllocateIsWaterfall(taker, rest, remaining - share, i - 1);
      OffersAhead(makers, offer, i);
      ServedBefore(remaining, offer(m), Sum(rest[..i - 1], offer), offer(makers[i]));
    }
  }

  lemma OffersAhead(makers: seq<Order>, offer: Order -> int, i: nat)
    requires 0 < i <= |makers| && forall k :: 0 <= k < |makers| ==> offer(makers[k]) >= 0
    ensures Sum(makers[..i], offer) == offer(makers[0]) + Sum(makers[1..][..i - 1], offer)
    ensures Sum(makers[1..][..i - 1], offer) >= 0
  {
    var ahead := makers[1..][..i - 1];
    assert makers[..i] == [makers[0]] + ahead;
    SumFirst(makers[0], ahead, offer);
    SumNonNegative(ahead, offer);
  }

  lemma ServedBefore(remaining: nat, first: nat, others: nat, offer: nat)
    ensures Clamp(remaining - Min(remaining, first) - others, 0, offer) == Clamp(remaining - (first + others), 0, offer)
  {
  }

  /** Together the makers give the taker's quantity or everything on offer, whichever is less. */
  lemma {:induction false} AllocateTotal(taker: Order, makers: seq<Order>, remaining: nat)
    requires HaveRemaining(makers)
    ensures Total(Allocate(taker, makers, remaining)) == Min(remaining, Sum(makers, Offer(taker)))
    decreases |makers|
  {
    if makers != [] {
      AllocateTotal(taker, makers[1..], remaining - Fill(taker, makers[0], remaining));
      assert makers == [makers[0]] + makers[1..];
      SumFirst(makers[0], makers[1..], Offer(taker));
      SumNonNegative(makers[1..], Offer(taker));
    }
  }

  /** The lock limits nothing exactly when it covers the whole allocation. */
  lemma {:induction false} AffordIsAllocateIff(taker: Order, makers: seq<Order>, remaining: int, budget: nat)
    ensures Afford(taker, makers, remaining, budget) == Allocate(taker, makers, remaining)
       <==> Paid(taker, makers, Allocate(taker, makers, remaining)) <= budget
    decreases |makers|
  {
    if makers != [] {
      var full := Fill(taker, makers[0], remaining);
      var cost := Cost(taker, makers[0], full);
      var rest := Allocate(taker, makers[1..], remaining - full);
      assert Allocate(taker, makers, remaining)[1..] == rest;
      if cost <= budget {
        var others := Afford(taker, makers[1..], remaining - full, budget - cost);
        AffordIsAllocateIff(taker, makers[1..], remaining - full, budget - cost);
        assert Afford(taker, makers, remaining, budget)[1..] == others;
      } else {
        assert Afford(taker, makers, remaining, budget)[0] == 0;
      }
    }
  }

  // ---- The loop follows the shares ----

  function Rows(orders: seq<Order>, ids: seq<nat>): (r: seq<Order>)
    requires forall i :: 0 <= i < |ids| ==> ids[i] < |orders|
    ensures |r| == |ids| && forall i :: 0 <= i < |ids| ==> r[i] == orders[ids[i]]
  {
    seq(|ids|, i requires 0 <= i < |ids| => orders[ids[i]])
  }

  /** The trades of an allocation, in order; makers with no share print nothing. */
  function Printed(takerId: nat, taker: Order, ids: seq<nat>, makers: seq<Order>, shares: seq<int>): seq<Trade>
    requires |ids| == |makers| == |shares|
  {
    if ids == [] then []
    else
      PrintedOne(takerId, taker, ids[0], makers[0], shares[0])
      + Printed(takerId, taker, ids[1..], makers[1..], shares[1..])
  }

  function PrintedOne(takerId: nat, taker: Order, makerId: nat, maker: Order, share: int): seq<Trade> {
    if share > 0 && maker.price.Some?
    then [TradeRow(takerId, taker, makerId, maker, maker.price.value, share)] else []
  }

  /** The state a loop that follows the shares ends in. */
  ghost predicate Follows(
    p: Progress, p': Progress, takerId: nat, taker: Order, ids: seq<nat>, makers: seq<Order>, shares: seq<int>)
    requires |ids| == |makers| == |shares|
  {
    && p'.db.trades == p.db.trades + Printed(takerId, taker, ids, makers, shares)
    && p'.remaining == p.remaining - Total(shares)
    && p'.executed == p.executed + Positives(shares)
    && RowsFilled(p.db.orders, p'.db.orders, takerId, ids, shares)
  }

  ghost predicate RowsFilled(
    orders: seq<Order>, orders': seq<Order>, takerId: nat, ids: seq<nat>, shares: seq<int>)
    requires |ids| == |shares|
  {
    && |orders'| == |orders|
    && (forall i :: 0 <= i < |ids| && ids[i] < |orders| ==> orders'[ids[i]].filled == orders[ids[i]].filled + shares[i])
    && (forall i :: 0 <= i < |orders| && i !in ids && i != takerId ==> orders'[i] == orders[i])
    && (forall i :: 0 <= i < |orders| ==> Terms(orders'[i]) == Terms(orders[i]))
  }

  lemma {:induction false} NothingLeft(taker: Order, makers: seq<Order>, budget: nat)
    requires HaveRemaining(makers)
    ensures forall i :: 0 <= i < |makers| ==> Afford(taker, makers, 0, budget)[i] == 0
    decreases |makers|
  {
    if makers != [] {
      NothingLeft(taker, makers[1..], budget);
    }
  }

  lemma {:induction false} NothingPrinted(
    takerId: nat, taker: Order, ids: seq<nat>, makers: seq<Order>, shares: seq<int>)
    requires |ids| == |makers| == |shares| && forall i :: 0 <= i < |shares| ==> shares[i] == 0
    ensures Printed(takerId, taker, ids, makers, shares) == []
    ensures Total(shares) == 0 && Positives(shares) == 0 && Paid(taker, makers, shares) == 0
  {
    if ids != [] {
      NothingPrinted(takerId, taker, ids[1..], makers[1..], shares[1..]);
    }
  }

  lemma LoopHasRemaining(p: Progress, takerId: nat, snapshot: seq<Order>, ids: seq<nat>)
    requires LoopInv(p, takerId, snapshot, ids)
    ensures HaveRemaining(Rows(snapshot, ids))
  {
    forall i | 0 <= i < |ids| ensures Remaining(Rows(snapshot, ids)[i]) > 0 {
      assert MakerUntouched(p, snapshot, ids[i]);
      assert OrderOk(p.db.pairs, p.db.orders[ids[i]]);
    }
  }

  /** What a BUY taker still has locked to pay from. */
  function Budget(db: Db, taker: Order): nat
    requires taker.pair < |db.pairs|
  {
    if taker.side == Buy then Read(db.balances, FundedBy(db.pairs, taker)).locked else 0
  }

  /** Within the cap, only what a BUY taker has locked can refuse a trade. */
  lemma TurnTradesIff(p: Progress, mode: Mode, takerId: nat, snapshot: seq<Order>, ids: seq<nat>)
    requires LoopInv(p, takerId, snapshot, ids) && Capped(p.db) && ids != [] && p.remaining != 0
    requires Tradable(p.taker, snapshot[ids[0]])
    ensures
      var maker := snapshot[ids[0]];
      var quantity := Min(p.remaining, Remaining(maker));
      ExecuteTrade(p.db, mode, takerId, p.taker, ids[0], maker, quantity).ok
      <==> Cost(p.taker, maker, quantity) <= Budget(p.db, p.taker)
  {
    var maker := snapshot[ids[0]];
    var quantity := Min(p.remaining, Remaining(maker));
    SelectedInLoop(p, takerId, snapshot, ids);
    assert OrderOk(p.db.pairs, p.db.orders[takerId]) && OrderOk(p.db.pairs, p.db.orders[ids[0]]);
    var inBase := Account(Seller(p.taker, maker).user, p.db.pairs[p.taker.pair].base);
    assert Slack(p.db, inBase) >= 0;
    TradeCoveredIff(p.db, takerId, p.taker, ids[0], maker, quantity);
    TradeRefusedIff(p.db, mode, takerId, p.taker, ids[0], maker, quantity);
    if p.taker.side == Sell {
      assert Slack(p.db, Account(maker.user, p.db.pairs[p.taker.pair].quote)) >= 0;
      BuyerHasLocked(p.db, takerId, p.taker, ids[0], maker, quantity);
    }
  }

  lemma ShareNonNegative(taker: Order, maker: Order, remaining: nat, budget: nat)
    requires Remaining(maker) >= 0
    ensures 0 <= Share(taker, maker, remaining, budget) <= remaining
  {
  }

  /** One turn of the loop gave the maker its share and moved no other maker. */
  ghost predicate Served(p: Progress, q: Progress, takerId: nat, taker: Order, makerId: nat, maker: Order, share: int) {
    && q.remaining == p.remaining - share
    && q.executed == p.executed + (if share > 0 then 1 else 0)
    && q.db.trades == p.db.trades + PrintedOne(takerId, taker, makerId, maker, share)
    && RowsFilled(p.db.orders, q.db.orders, takerId, [makerId], [share])
  }

  /** The turn is not held up by a refusal that nothing undoes. */
  predicate Unhindered(p: Progress, mode: Mode, maker: Order)
    requires p.taker.pair < |p.db.pairs|
  {
    mode.atomicTrade || Cost(p.taker, maker, Fill(p.taker, maker, p.remaining)) <= Budget(p.db, p.taker)
  }

  lemma MatchOneServes(p: Progress, mode: Mode, takerId: nat, taker: Order, snapshot: seq<Order>, ids: seq<nat>)
    requires LoopInv(p, takerId, snapshot, ids) && Capped(p.db) && ids != [] && p.remaining != 0
    requires mode.carryFill && p.taker == taker.(filled := p.taker.filled) && Unhindered(p, mode, snapshot[ids[0]])
    ensures
      var maker := snapshot[ids[0]];
      var q := MatchOne(p, mode, takerId, ids[0], maker);
      && q.taker == taker.(filled := q.taker.filled) && Clean(p, mode, takerId, ids[0], maker)
      && Served(p, q, takerId, taker, ids[0], maker, Share(taker, maker, p.remaining, Budget(p.db, p.taker)))
  {
    var maker := snapshot[ids[0]];
    var quantity := Min(p.remaining, Remaining(maker));
    SelectedInLoop(p, takerId, snapshot, ids);
    if Tradable(p.taker, maker) {
      TurnTradesIff(p, mode, takerId, snapshot, ids);
    } else {
      assert MatchOne(p, mode, takerId, ids[0], maker) == p;
    }
    TradeFrame(p.db, mode, takerId, p.taker, ids[0], maker, quantity);
  }

  /** A turn takes the cost of its share out of the taker's budget. */
  lemma MatchOneSpends(p: Progress, mode: Mode, takerId: nat, taker: Order, snapshot: seq<Order>, ids: seq<nat>)
    requires LoopInv(p, takerId, snapshot, ids) && Capped(p.db) && ids != [] && p.remaining != 0
    requires mode.carryFill && p.taker == taker.(filled := p.taker.filled) && Unhindered(p, mode, snapshot[ids[0]])
    ensures
      var maker := snapshot[ids[0]];
      var q := MatchOne(p, mode, takerId, ids[0], maker);
      q.taker.pair < |q.db.pairs| && Budget(q.db, q.taker)
        == Budget(p.db, p.taker) - Cost(taker, maker, Share(taker, maker, p.remaining, Budget(p.db, p.taker)))
  {
    var maker := snapshot[ids[0]];
    var quantity := Min(p.remaining, Remaining(maker));
    SelectedInLoop(p, takerId, snapshot, ids);
    if Tradable(p.taker, maker) {
      TurnTradesIff(p, mode, takerId, snapshot, ids);
      if ExecuteTrade(p.db, mode, takerId, p.taker, ids[0], maker, quantity).ok {
        TradeMoves(p.db, mode, takerId, p.taker, ids[0], maker, quantity, FundedBy(p.db.pairs, p.taker));
      }
    } else {
      assert MatchOne(p, mode, takerId, ids[0], maker) == p;
    }
  }

  /** No turn of the loop is held up. */
  ghost predicate LoopUnhindered(p: Progress, mode: Mode, taker: Order, makers: seq<Order>)
    requires p.taker.pair < |p.db.pairs|
  {
    mode.atomicTrade || Paid(taker, makers, Allocate(taker, makers, p.remaining)) <= Budget(p.db, p.taker)
  }

  /**
   * Within the cap and with carried fills, the loop trades exactly the shares that the taker's lock
   * can pay for: the printed trades are those at the makers' prices, and no other row moves.
   */
  lemma {:induction false} LoopFollowsShares(
    p: Progress, mode: Mode, takerId: nat, taker: Order, snapshot: seq<Order>, ids: seq<nat>)
    requires LoopInv(p, takerId, snapshot, ids) && Capped(p.db)
    requires mode.carryFill && p.taker == taker.(filled := p.taker.filled)
    requires LoopUnhindered(p, mode, taker, Rows(snapshot, ids))
    ensures
      var makers := Rows(snapshot, ids);
      Follows(p, MatchLoop(p, mode, takerId, snapshot, ids), takerId, taker, ids, makers,
              Afford(taker, makers, p.remaining, Budget(p.db, p.taker)))
    decreases |ids|
  {
    var makers := Rows(snapshot, ids);
    LoopHasRemaining(p, takerId, snapshot, ids);
    if p.remaining == 0 || ids == [] {
      NothingFollows(p, takerId, taker, ids, makers);
    } else {
      TurnAndRest(p, mode, takerId, taker, snapshot, ids);
      var q := MatchOne(p, mode, takerId, ids[0], snapshot[ids[0]]);
      LoopFollowsShares(q, mode, takerId, taker, snapshot, ids[1..]);
      FollowsStep(p, q, MatchLoop(q, mode, takerId, snapshot, ids[1..]), takerId, taker, ids, makers,
                  Afford(taker, makers, p.remaining, Budget(p.db, p.taker)));
    }
  }

  lemma FirstUnhindered(p: Progress, mode: Mode, taker: Order, snapshot: seq<Order>, ids: seq<nat>)
    requires ids != [] && forall i :: 0 <= i < |ids| ==> ids[i] < |snapshot|
    requires p.taker.pair < |p.db.pairs| && p.taker == taker.(filled := p.taker.filled)
    requires LoopUnhindered(p, mode, taker, Rows(snapshot, ids))
    ensures Rows(snapshot, ids[1..]) == Rows(snapshot, ids)[1..] && Unhindered(p, mode, snapshot[ids[0]])
  {
    AllocateFirst(taker, Rows(snapshot, ids), p.remaining);
  }

  /** A first turn as its share says, with everything in place for the rest. */
  lemma TurnAndRest(p: Progress, mode: Mode, takerId: nat, taker: Order, snapshot: seq<Order>, ids: seq<nat>)
    requires LoopInv(p, takerId, snapshot, ids) && Capped(p.db) && ids != [] && p.remaining != 0
    requires mode.carryFill && p.taker == taker.(filled := p.taker.filled)
    requires LoopUnhindered(p, mode, taker, Rows(snapshot, ids))
    ensures
      var makers, maker := Rows(snapshot, ids), snapshot[ids[0]];
      var q := MatchOne(p, mode, takerId, ids[0], maker);
      var shares := Afford(taker, makers, p.remaining, Budget(p.db, p.taker));
      && LoopInv(q, takerId, snapshot, ids[1..]) && Capped(q.db) && q.taker == taker.(filled := q.taker.filled)
      && Clean(p, mode, takerId, ids[0], maker)
      && Rows(snapshot, ids[1..]) == makers[1..] && LoopUnhindered(q, mode, taker, makers[1..])
      && Served(p, q, takerId, taker, ids[0], maker, shares[0])
      && shares[1..] == Afford(taker, makers[1..], q.remaining, Budget(q.db, q.taker))
  {
    FirstUnhindered(p, mode, taker, snapshot, ids);
    MatchOneServes(p, mode, takerId, taker, snapshot, ids);
    MatchOneSpends(p, mode, takerId, taker, snapshot, ids);
    RestOfShares(p, MatchOne(p, mode, takerId, ids[0], snapshot[ids[0]]), mode, taker, Rows(snapshot, ids));
    MatchOneKeeps(p, mode, takerId, snapshot, ids);
  }

  lemma RestOfShares(p: Progress, q: Progress, mode: Mode, taker: Order, makers: seq<Order>)
    requires makers != [] && p.taker.pair < |p.db.pairs| && q.taker.pair < |q.db.pairs|
    requires
      var share := Share(taker, makers[0], p.remaining, Budget(p.db, p.taker));
      && q.remaining == p.remaining - share
      && Budget(q.db, q.taker) == Budget(p.db, p.taker) - Cost(taker, makers[0], share)
    requires LoopUnhindered(p, mode, taker, makers)
    ensures
      var shares := Afford(taker, makers, p.remaining, Budget(p.db, p.taker));
      && LoopUnhindered(q, mode, taker, makers[1..])
      && shares[0] == Share(taker, makers[0], p.remaining, Budget(p.db, p.taker))
      && shares[1..] == Afford(taker, makers[1..], q.remaining, Budget(q.db, q.taker))
  {
    var budget := Budget(p.db, p.taker);
    AffordFirst(taker, makers, p.remaining, budget);
    if !mode.atomicTrade {
      var full := Fill(taker, makers[0], p.remaining);
      AllocateFirst(taker, makers, p.remaining);
      assert Share(taker, makers[0], p.remaining, budget) == full;
    }
  }

  lemma AllocateFirst(taker: Order, makers: seq<Order>, remaining: int)
    requires makers != []
    ensures
      var full := Fill(taker, makers[0], remaining);
      Paid(taker, makers, Allocate(taker, makers, remaining))
        == Cost(taker, makers[0], full) + Paid(taker, makers[1..], Allocate(taker, makers[1..], remaining - full))
  {
    var full := Fill(taker, makers[0], remaining);
    assert Allocate(taker, makers, remaining)[1..] == Allocate(taker, makers[1..], remaining - full);
  }

  lemma AffordFirst(taker: Order, makers: seq<Order>, remaining: int, budget: nat)
    requires makers != []
    ensures
      var share, shares := Share(taker, makers[0], remaining, budget), Afford(taker, makers, remaining, budget);
      && shares[0] == share
      && shares[1..] == Afford(taker, makers[1..], remaining - share, budget - Cost(taker, makers[0], share))
  {
  }

  lemma NothingFollows(p: Progress, takerId: nat, taker: Order, ids: seq<nat>, makers: seq<Order>)
    requires |ids| == |makers| && HaveRemaining(makers) && (p.remaining == 0 || ids == [])
    requires p.taker.pair < |p.db.pairs|
    ensures Follows(p, p, takerId, taker, ids, makers, Afford(taker, makers, p.remaining, Budget(p.db, p.taker)))
  {
    if p.remaining == 0 {
      NothingLeft(taker, makers, Budget(p.db, p.taker));
      NothingPrinted(takerId, taker, ids, makers, Afford(taker, makers, 0, Budget(p.db, p.taker)));
    }
  }

  lemma FollowsStep(
    p: Progress, q: Progress, p': Progress, takerId: nat, taker: Order, ids: seq<nat>, makers: seq<Order>,
    shares: seq<int>)
    requires ids != [] && |ids| == |makers| == |shares| && takerId !in ids && Distinct(ids)
    requires forall i :: 0 <= i < |ids| ==> ids[i] < |p.db.orders|
    requires Served(p, q, takerId, taker, ids[0], makers[0], shares[0])
    requires Follows(q, p', takerId, taker, ids[1..], makers[1..], shares[1..])
    ensures Follows(p, p', takerId, taker, ids, makers, shares)
  {
    TradesStep(p.db.trades, PrintedOne(takerId, taker, ids[0], makers[0], shares[0]),
               Printed(takerId, taker, ids[1..], makers[1..], shares[1..]));
    CountsStep(shares);
    RowsFilledStep(p.db.orders, q.db.orders, p'.db.orders, takerId, ids, shares);
  }

  lemma TradesStep(a: seq<Trade>, b: seq<Trade>, c: seq<Trade>)
    ensures a + b + c == a + (b + c)
  {
  }

  lemma CountsStep(shares: seq<int>)
    requires shares != []
    ensures Total(shares) == shares[0] + Total(shares[1..])
    ensures Positives(shares) == (if shares[0] > 0 then 1 else 0) + Positives(shares[1..])
  {
  }

  lemma RowsFilledStep(
    orders: seq<Order>, middle: seq<Order>, orders': seq<Order>, takerId: nat, ids: seq<nat>, shares: seq<int>)
    requires ids != [] && |ids| == |shares| && takerId !in ids && Distinct(ids)
    requires forall i :: 0 <= i < |ids| ==> ids[i] < |orders|
    requires RowsFilled(orders, middle, takerId, [ids[0]], [shares[0]])
    requires RowsFilled(middle, orders', takerId, ids[1..], shares[1..])
    ensures RowsFilled(orders, orders', takerId, ids, shares)
  {
    assert ids == [ids[0]] + ids[1..];
    assert [ids[0]][0] == ids[0];
    forall i | 0 <= i < |ids| ensures orders'[ids[i]].filled == orders[ids[i]].filled + shares[i] {
      if i == 0 {
        assert ids[0] !in ids[1..];
        assert orders'[ids[0]] == middle[ids[0]];
      } else {
        assert ids[1..][i - 1] == ids[i] && shares[1..][i - 1] == shares[i];
        assert middle[ids[i]] == orders[ids[i]];
      }
    }
  }

  // ---- What the loop leaves of the taker's lock ----

  /**
   * The slack of the taker's account after the loop: a BUY taker sheds the debt of what it bought and
   * pays the makers' prices for it, a SELL taker breaks even.
   */
  lemma {:induction false} LoopSlack(
    p: Progress, mode: Mode, takerId: nat, taker: Order, snapshot: seq<Order>, ids: seq<nat>)
    requires LoopInv(p, takerId, snapshot, ids) && Capped(p.db)
    requires mode.carryFill && p.taker == taker.(filled := p.taker.filled)
    requires LoopUnhindered(p, mode, taker, Rows(snapshot, ids))
    ensures
      var makers, p' := Rows(snapshot, ids), MatchLoop(p, mode, takerId, snapshot, ids);
      var account := FundedBy(p.db.pairs, p.taker);
      && LoopInv(p', takerId, snapshot, []) && Capped(p'.db) && p.remaining >= 0 && p'.remaining >= 0
      && Slack(p'.db, account) == Slack(p.db, account)
           + ShedLessPaid(taker, p.remaining, p'.remaining,
                          Paid(taker, makers, Afford(taker, makers, p.remaining, Budget(p.db, p.taker))))
    decreases |ids|
  {
    var makers, account := Rows(snapshot, ids), FundedBy(p.db.pairs, p.taker);
    assert OrderOk(p.db.pairs, p.db.orders[takerId]);
    if p.remaining == 0 || ids == [] {
      LoopHasRemaining(p, takerId, snapshot, ids);
      if p.remaining == 0 {
        NothingLeft(taker, makers, Budget(p.db, p.taker));
        NothingPrinted(takerId, taker, ids, makers, Afford(taker, makers, 0, Budget(p.db, p.taker)));
      }
    } else {
      TurnAndRest(p, mode, takerId, taker, snapshot, ids);
      FirstUnhindered(p, mode, taker, snapshot, ids);
      TurnSlack(p, mode, takerId, taker, snapshot, ids);
      LoopSlack(MatchOne(p, mode, takerId, ids[0], snapshot[ids[0]]), mode, takerId, taker, snapshot, ids[1..]);
    }
  }

  function ShedLessPaid(taker: Order, before: nat, after: nat, paid: nat): int {
    if taker.side == Buy && taker.price.Some?
    then Quote(before, taker.price.value) - Quote(after, taker.price.value) - paid else 0
  }

  lemma TurnSlack(p: Progress, mode: Mode, takerId: nat, taker: Order, snapshot: seq<Order>, ids: seq<nat>)
    requires LoopInv(p, takerId, snapshot, ids) && Capped(p.db) && ids != [] && p.remaining != 0
    requires mode.carryFill && p.taker == taker.(filled := p.taker.filled) && Unhindered(p, mode, snapshot[ids[0]])
    ensures
      var maker := snapshot[ids[0]];
      var q := MatchOne(p, mode, takerId, ids[0], maker);
      var account := FundedBy(p.db.pairs, p.taker);
      && p.remaining >= 0 && q.remaining >= 0
      && Slack(q.db, account) == Slack(p.db, account)
           + ShedLessPaid(taker, p.remaining, q.remaining,
                          Cost(taker, maker, Share(taker, maker, p.remaining, Budget(p.db, p.taker))))
  {
    var maker := snapshot[ids[0]];
    var q := MatchOne(p, mode, takerId, ids[0], maker);
    assert OrderOk(p.db.pairs, p.db.orders[takerId]);
    MatchOneServes(p, mode, takerId, taker, snapshot, ids);
    var gain := MatchOneGain(p, mode, takerId, snapshot, ids);
    MatchOneSlack(p, mode, takerId, snapshot, ids, gain, FundedBy(p.db.pairs, p.taker));
    SelectedInLoop(p, takerId, snapshot, ids);
    ShareNonNegative(taker, maker, p.remaining, Budget(p.db, p.taker));
    if p.taker.side == Buy {
      GainIsShedLessPaid(p, q, taker, maker, Share(taker, maker, p.remaining, Budget(p.db, p.taker)), gain);
    }
  }

  lemma GainIsShedLessPaid(p: Progress, q: Progress, taker: Order, maker: Order, share: int, gain: int)
    requires TurnGain(p, q, maker, gain) && p.taker == taker.(filled := p.taker.filled) && taker.side == Buy
    requires p.remaining == Remaining(p.taker) >= 0 && q.remaining == p.remaining - share
    requires q.executed == p.executed + (if share > 0 then 1 else 0) && share >= 0
    ensures q.remaining >= 0 && gain == ShedLessPaid(taker, p.remaining, q.remaining, Cost(taker, maker, share))
  {
  }
}
