/** A matching job leaves the book uncrossed, exactly when its hundred fetched orders reached far enough. */
module Crossing {
  import opened Sums
  import opened Exchange
  import opened Matching
  import opened OrderBook
  import opened Solvency
  import opened Jobs
  import opened Runs
  import opened Agreement
  import opened Allocation
  import opened Fills
  import opened Greedy
  import opened Guards

  /** A resting bid with a limit that meets a resting ask with a limit. */
  predicate Crossed(orders: seq<Order>, pair: nat, bid: nat, ask: nat) {
    && InBook(orders, pair, Buy, bid) && InBook(orders, pair, Sell, ask)
    && orders[bid].kind != Market && orders[ask].kind != Market
    && orders[bid].price.Some? && orders[ask].price.Some?
    && orders[bid].price.value >= orders[ask].price.value
  }

  ghost predicate Uncrossed(db: Db, pair: nat) {
    forall bid: nat, ask: nat :: !Crossed(db.orders, pair, bid, ask)
  }

  /** Everything the taker could trade with among the orders it fetches. */
  ghost function Reach(db: Db, id: nat): int
    requires Matchable(db, id)
  {
    Sum(Fetched(db, id), Offer(Taker(db, id)))
  }

  /** A resting limit order past the hundredth that the taker crosses. */
  ghost predicate CrossesBeyond(db: Db, id: nat, other: nat)
    requires Matchable(db, id)
  {
    var p := LoopStart(db, id);
    && InBook(p.db.orders, p.taker.pair, Opposite(p.taker.side), other) && other !in Opponents(p.db, id)
    && p.db.orders[other].kind != Market && CanMatch(p.taker, p.db.orders[other])
  }

  // ---- Where the rows stand after a job ----

  /**
   * The shares in the makers' rows, the taker filled when enough was in reach and resting otherwise, and
   * every row but the taker's well formed: its fill count may be stale.
   */
  ghost predicate JobEnd(db: Db, db': Db, id: nat)
    requires Matchable(db, id)
  {
    && Listed(Taker(db, id), Fetched(db, id)) && |db'.orders| == |db.orders|
    && (forall i :: 0 <= i < |db'.orders| && i != id ==> OrderOk(db'.pairs, db'.orders[i]))
    && Settled(db, db'.orders, id)
  }

  ghost predicate Settled(db: Db, orders': seq<Order>, id: nat)
    requires Matchable(db, id)
  {
    var ids := Opponents(LoopStart(db, id).db, id);
    && id !in ids && |ids| == |Wanted(db, id)| && RowsFilled(db.orders, orders', id, ids, Wanted(db, id))
    && (if Reach(db, id) >= Remaining(db.orders[id]) then orders'[id].status == Filled else Resting(orders'[id].status))
  }

  ghost predicate OnlyStatus(orders: seq<Order>, orders': seq<Order>, id: nat) {
    && |orders| == |orders'| && id < |orders|
    && (forall i :: 0 <= i < |orders| && i != id ==> orders'[i] == orders[i])
    && Terms(orders'[id]) == Terms(orders[id])
  }

  /** Writes to the taker's row before and after the loop leave the other rows alone. */
  lemma RowsFilledAround(
    orders: seq<Order>, start: seq<Order>, end: seq<Order>, orders': seq<Order>, id: nat, ids: seq<nat>,
    shares: seq<int>)
    requires |ids| == |shares| && id !in ids && RowsFilled(start, end, id, ids, shares)
    requires OnlyStatus(orders, start, id) && OnlyStatus(end, orders', id)
    ensures RowsFilled(orders, orders', id, ids, shares)
  {
  }

  lemma CarriedJobSettles(db: Db, atomic: bool, id: nat)
    requires Sound(db) && Capped(db) && Matchable(db, id) && (MarketBuy(db.orders[id]) ==> LockCovers(db, id))
    ensures Settled(db, MatchJob(db, Mode(true, atomic), id).db.orders, id)
  {
    var p, q := LoopStart(db, id), LoopEnd(db, Mode(true, atomic), id);
    WantedIsShares(db, atomic, id);
    JobFollowsShares(db, atomic, id);
    JobIsLoop(db, Mode(true, atomic), id);
    RowsFilledAround(db.orders, p.db.orders, q.db.orders, MatchJob(db, Mode(true, atomic), id).db.orders, id,
                     Opponents(p.db, id), Wanted(db, id));
    JobEndsBy(db, atomic, id);
  }

  lemma JobEndsBy(db: Db, atomic: bool, id: nat)
    requires Sound(db) && Capped(db) && Matchable(db, id) && (MarketBuy(db.orders[id]) ==> LockCovers(db, id))
    ensures
      var status := MatchJob(db, Mode(true, atomic), id).db.orders[id].status;
      if Reach(db, id) >= Remaining(db.orders[id]) then status == Filled else Resting(status)
  {
    var p, q := LoopStart(db, id), LoopEnd(db, Mode(true, atomic), id);
    WantedIsShares(db, atomic, id);
    LoopRemaining(db, atomic, id);
    LoopLeavesInv(db, atomic, id);
    EndFinished(q, id, p.db.orders);
    JobIsLoop(db, Mode(true, atomic), id);
    JobHasRemaining(db, id);
    AllocateTotal(Taker(db, id), Fetched(db, id), Remaining(db.orders[id]));
  }

  lemma CarriedJobRows(db: Db, atomic: bool, id: nat)
    requires Sound(db) && Capped(db) && Matchable(db, id) && (MarketBuy(db.orders[id]) ==> LockCovers(db, id))
    ensures JobEnd(db, MatchJob(db, Mode(true, atomic), id).db, id)
  {
    CarriedJobSettles(db, atomic, id);
    WantedIsShares(db, atomic, id);
    JobLeaves(db, atomic, id);
    FetchedIsListed(db, id);
  }

  /** Where each row stands after a job, in any mode. */
  lemma JobRows(db: Db, mode: Mode, id: nat)
    requires Sound(db) && Capped(db) && Matchable(db, id) && (MarketBuy(db.orders[id]) ==> LockCovers(db, id))
    ensures JobEnd(db, MatchJob(db, mode, id).db, id)
  {
    var carried := Mode(true, mode.atomicTrade);
    CarriedJobRows(db, mode.atomicTrade, id);
    StaleFillDiffers(db, mode.atomicTrade, id);
    if mode != carried {
      assert mode == Mode(false, mode.atomicTrade);
      OnlyTakerDiffers(db, MatchJob(db, carried, id).db, MatchJob(db, mode, id).db, id);
    }
  }

  lemma OnlyTakerDiffers(db: Db, carried: Db, db': Db, id: nat)
    requires Matchable(db, id) && |carried.orders| == |db'.orders| == |db.orders| && JobEnd(db, carried, id)
    requires db' == carried.(orders := carried.orders[id := carried.orders[id].(filled := db'.orders[id].filled)])
    ensures JobEnd(db, db', id)
  {
  }

  /** A crossed maker that was fetched is gone when the taker still rests. */
  lemma CrossedMakerIsFilled(db: Db, db': Db, id: nat, other: nat)
    requires Matchable(db, id) && JobEnd(db, db', id) && Reach(db, id) < Remaining(db.orders[id])
    requires other < |db.orders| && other != id && other in Opponents(LoopStart(db, id).db, id)
    requires CanMatch(db.orders[id], db.orders[other]) && db.orders[other].price.Some?
    ensures db'.orders[other].status == Filled
  {
    var p := LoopStart(db, id);
    var k :| 0 <= k < |Opponents(p.db, id)| && Opponents(p.db, id)[k] == other;
    assert p.db.orders[other] == db.orders[other];
    FullShare(p.taker, Fetched(db, id), p.remaining, k);
    SameTerms(db.orders[other], db'.orders[other]);
  }

  /** When the taker outlasts its reach, every maker it can trade with is given everything. */
  lemma FullShare(taker: Order, makers: seq<Order>, remaining: int, k: nat)
    requires Listed(taker, makers) && Sum(makers, Offer(taker)) < remaining
    requires k < |makers| && CanMatch(taker, makers[k]) && makers[k].price.Some?
    ensures Allocate(taker, makers, remaining)[k] == Remaining(makers[k])
  {
    SumNonNegative(makers, Offer(taker));
    AllocateIsWaterfall(taker, makers, remaining, k);
    TailOffers(makers, Offer(taker), k);
  }

  lemma TailOffers(makers: seq<Order>, offer: Order -> int, k: nat)
    requires k < |makers| && forall i :: 0 <= i < |makers| ==> offer(makers[i]) >= 0
    ensures Sum(makers[..k], offer) + offer(makers[k]) <= Sum(makers, offer)
  {
    OffersAdd(makers, offer, k, |makers|);
    assert makers[..|makers|] == makers;
  }

  // ---- One job ----

  /** Whatever the mode and the state, a job lets no row rest that did not, and keeps what a crossing looks at. */
  lemma RestingPersists(db: Db, mode: Mode, id: nat, i: nat)
    requires Matchable(db, id) && i < |db.orders|
    ensures i != id && Resting(MatchJob(db, mode, id).db.orders[i].status) ==> Resting(db.orders[i].status)
    ensures Terms(MatchJob(db, mode, id).db.orders[i]) == Terms(db.orders[i])
  {
    var p := LoopStart(db, id);
    OpponentsReady(db, id);
    LoopFrame(p, mode, id, p.db.orders, Opponents(p.db, id));
    JobIsLoop(db, mode, id);
    FetchSpec(p.db.orders, p.taker.pair, Opposite(p.taker.side));
    assert i in Opponents(p.db, id) ==> InBook(p.db.orders, p.taker.pair, Opposite(p.taker.side), i);
  }

  /** Terms of two rows agree on everything a crossing looks at. */
  lemma CrossedByTerms(orders: seq<Order>, orders': seq<Order>, pair: nat, bid: nat, ask: nat)
    requires |orders| == |orders'| && Crossed(orders', pair, bid, ask)
    requires Terms(orders[bid]) == Terms(orders'[bid]) && Terms(orders[ask]) == Terms(orders'[ask])
    requires Resting(orders[bid].status) && Resting(orders[ask].status)
    ensures Crossed(orders, pair, bid, ask)
  {
    assert forall o: Order :: Terms(o).pair == o.pair && Terms(o).side == o.side;
    assert forall o: Order :: Terms(o).kind == o.kind && Terms(o).price == o.price;
  }

  /** A crossing that does not involve the taker was there before the job. In any mode, from any state. */
  lemma CrossedBefore(db: Db, mode: Mode, id: nat, pair: nat, bid: nat, ask: nat)
    requires Matchable(db, id) && bid != id && ask != id
    requires Crossed(MatchJob(db, mode, id).db.orders, pair, bid, ask)
    ensures Crossed(db.orders, pair, bid, ask)
  {
    RestingPersists(db, mode, id, bid);
    RestingPersists(db, mode, id, ask);
    CrossedByTerms(db.orders, MatchJob(db, mode, id).db.orders, pair, bid, ask);
  }

  /** The taker and another order are crossed in the book, whichever of them is the bid. */
  predicate CrossedWith(orders: seq<Order>, pair: nat, id: nat, other: nat)
    requires id < |orders|
  {
    if orders[id].side == Buy then Crossed(orders, pair, id, other) else Crossed(orders, pair, other, id)
  }

  /** The counterpart of a taker that ends up crossed was beyond the fetched orders. */
  lemma TakerCrossedAfterJob(db: Db, mode: Mode, id: nat, other: nat)
    requires Sound(db) && Capped(db) && Matchable(db, id) && db.orders[id].kind != Market
    requires CrossedWith(MatchJob(db, mode, id).db.orders, db.orders[id].pair, id, other)
    ensures Reach(db, id) < Remaining(db.orders[id]) && CrossesBeyond(db, id, other)
  {
    var db' := MatchJob(db, mode, id).db;
    JobRows(db, mode, id);
    RestingPersists(db, mode, id, other);
    SameTerms(db.orders[id], db'.orders[id]);
    SameTerms(db.orders[other], db'.orders[other]);
    if other in Opponents(LoopStart(db, id).db, id) {
      CrossedMakerIsFilled(db, db', id, other);
      assert false;
    }
  }

  /** After a job, a crossed pair must involve the taker. */
  lemma CrossedAfterJob(db: Db, mode: Mode, id: nat, bid: nat, ask: nat)
    requires Sound(db) && Capped(db) && Matchable(db, id) && db.orders[id].kind != Market
    requires Uncrossed(db, db.orders[id].pair)
    requires Crossed(MatchJob(db, mode, id).db.orders, db.orders[id].pair, bid, ask)
    ensures Reach(db, id) < Remaining(db.orders[id]) && (CrossesBeyond(db, id, bid) || CrossesBeyond(db, id, ask))
  {
    if bid != id && ask != id {
      CrossedBefore(db, mode, id, db.orders[id].pair, bid, ask);
      assert false;
    }
    RestingPersists(db, mode, id, id);
    SameTerms(db.orders[id], MatchJob(db, mode, id).db.orders[id]);
    TakerCrossedAfterJob(db, mode, id, if bid == id then ask else bid);
  }

  lemma BeyondEndsCrossed(db: Db, mode: Mode, id: nat, other: nat)
    requires Sound(db) && Capped(db) && Matchable(db, id) && db.orders[id].kind != Market
    requires Reach(db, id) < Remaining(db.orders[id]) && CrossesBeyond(db, id, other)
    ensures !Uncrossed(MatchJob(db, mode, id).db, db.orders[id].pair)
  {
    var db' := MatchJob(db, mode, id).db;
    JobRows(db, mode, id);
    SameTerms(db.orders[id], db'.orders[id]);
    assert db'.orders[other] == db.orders[other];
    assert CrossedWith(db'.orders, db.orders[id].pair, id, other);
  }

  /**
   * From an uncrossed book, a limit order's job ends in an uncrossed book exactly when the fetched
   * orders could fill it or no resting limit order past the hundredth is within its price.
   */
  lemma JobKeepsUncrossedIff(db: Db, mode: Mode, id: nat)
    requires Sound(db) && Capped(db) && Matchable(db, id)
    requires db.orders[id].kind != Market && Uncrossed(db, db.orders[id].pair)
    ensures Uncrossed(MatchJob(db, mode, id).db, db.orders[id].pair)
       <==> Reach(db, id) >= Remaining(db.orders[id]) || forall other: nat :: !CrossesBeyond(db, id, other)
  {
    var db', pair := MatchJob(db, mode, id).db, db.orders[id].pair;
    if !Uncrossed(db', pair) {
      var bid: nat, ask: nat :| Crossed(db'.orders, pair, bid, ask);
      CrossedAfterJob(db, mode, id, bid, ask);
    } else if Reach(db, id) < Remaining(db.orders[id]) {
      forall other: nat ensures !CrossesBeyond(db, id, other) {
        if CrossesBeyond(db, id, other) {
          BeyondEndsCrossed(db, mode, id, other);
        }
      }
    }
  }

  /** At most a hundred opposing orders rest when the job runs. */
  predicate FetchesAll(db: Db, id: nat) {
    Matchable(db, id) ==>
      |Book(LoopStart(db, id).db.orders, db.orders[id].pair, Opposite(db.orders[id].side))| <= BOOK_LIMIT
  }

  /** A job never crosses the book of a pair when it fetches every opposing order. In any mode. */
  lemma FullFetchKeepsUncrossed(db: Db, mode: Mode, id: nat, pair: nat)
    requires Sound(db) && Capped(db) && Uncrossed(db, pair) && FetchesAll(db, id)
    ensures Uncrossed(MatchJob(db, mode, id).db, pair)
  {
    if Matchable(db, id) && pair == db.orders[id].pair && db.orders[id].kind != Market {
      var p := LoopStart(db, id);
      FetchSpec(p.db.orders, p.taker.pair, Opposite(p.taker.side));
      BookSpec(p.db.orders, p.taker.pair, Opposite(p.taker.side));
      JobKeepsUncrossedIff(db, mode, id);
    } else {
      OtherJobKeepsUncrossed(db, mode, id, pair);
    }
  }

  /** A MARKET order's job crosses no book, nor does a job on another pair. In any mode, from any state. */
  lemma OtherJobKeepsUncrossed(db: Db, mode: Mode, id: nat, pair: nat)
    requires Uncrossed(db, pair)
    requires Matchable(db, id) ==> pair != db.orders[id].pair || db.orders[id].kind == Market
    ensures Uncrossed(MatchJob(db, mode, id).db, pair)
  {
    var db' := MatchJob(db, mode, id).db;
    forall bid: nat, ask: nat ensures !Crossed(db'.orders, pair, bid, ask) {
      assert !Crossed(db.orders, pair, bid, ask);
      if Matchable(db, id) && Crossed(db'.orders, pair, bid, ask) {
        RestingPersists(db, mode, id, id);
        SameTerms(db.orders[id], db'.orders[id]);
        CrossedBefore(db, mode, id, pair, bid, ask);
      }
    }
  }

  // ---- Runs ----

  ghost predicate EveryFetchFull(db: Db, mode: Mode, steps: seq<Step>)
    decreases |steps|
  {
    steps != [] ==>
      && (steps[0].RunMatchJob? ==> FetchesAll(db, steps[0].id))
      && EveryFetchFull(Apply(db, mode, steps[0]), mode, steps[1..])
  }

  lemma OtherStepsKeepUncrossed(db: Db, mode: Mode, step: Step, pair: nat)
    requires Uncrossed(db, pair) && !step.RunMatchJob?
    ensures Uncrossed(Apply(db, mode, step), pair)
  {
    var db' := Apply(db, mode, step);
    forall bid: nat, ask: nat ensures !Crossed(db'.orders, pair, bid, ask) {
      assert !Crossed(db.orders, pair, bid, ask);
    }
  }

  /**
   * No run crosses a book, as long as it stays sound and no job meets more than a hundred opposing
   * orders. In any mode: it stays sound as long as its steps meet their guards.
   */
  lemma {:induction false} RunKeepsUncrossed(db: Db, mode: Mode, steps: seq<Step>, pair: nat)
    requires Sound(db) && Capped(db) && Uncrossed(db, pair)
    requires forall i :: 0 <= i < |steps| ==> WithinCap(steps[i])
    requires AlwaysGuarded(db, mode, steps) && EveryFetchFull(db, mode, steps)
    ensures Uncrossed(Run(db, mode, steps), pair)
    decreases |steps|
  {
    if steps != [] {
      StepSoundIff(db, mode, steps[0]);
      StepKeepsCapped(db, mode, steps[0]);
      if steps[0].RunMatchJob? {
        FullFetchKeepsUncrossed(db, mode, steps[0].id, pair);
      } else {
        OtherStepsKeepUncrossed(db, mode, steps[0], pair);
      }
      RunKeepsUncrossed(Apply(db, mode, steps[0]), mode, steps[1..], pair);
    }
  }

  // ---- Re-matching ----

  /** The filter keeps exactly the willing orders, in their order. */
  lemma {:induction false} WillingSpec(orders: seq<Order>, side: Side, maker: Order, ids: seq<nat>)
    requires forall i :: 0 <= i < |ids| ==> ids[i] < |orders|
    requires Sorted(orders, side, ids) && Distinct(ids)
    ensures Sorted(orders, side, Willing(orders, maker, ids)) && Distinct(Willing(orders, maker, ids))
    ensures forall x: nat :: x in Willing(orders, maker, ids)
                        <==> x in ids && x < |orders| && CanMatch(orders[x], maker)
  {
    if ids != [] {
      WillingSpec(orders, side, maker, ids[1..]);
      var rest := Willing(orders, maker, ids[1..]);
      assert ids == [ids[0]] + ids[1..];
      if CanMatch(orders[ids[0]], maker) {
        forall i | 0 <= i < |rest| ensures Precedes(orders, side, ids[0], rest[i]) && ids[0] != rest[i] {
          assert rest[i] in rest;
          var k :| 0 <= k < |ids[1..]| && ids[1..][k] == rest[i];
          assert ids[k + 1] == rest[i];
        }
        PrependSorted(orders, side, ids[0], rest);
      }
    }
  }

  /** The orders queued for re-matching: the best ten of the fetched orders that could trade, or all of them. */
  lemma RematchesSpec(db: Db, id: nat)
    requires id < |db.orders|
    ensures
      var o, r := db.orders[id], Rematches(db, id);
      && |r| <= REMATCH_LIMIT && Distinct(r)
      && (forall x: nat :: x in r ==> x in Opponents(db, id) && x < |db.orders| && CanMatch(db.orders[x], o))
      && (forall x: nat :: x in Opponents(db, id) && x < |db.orders| && CanMatch(db.orders[x], o) && x !in r ==>
            |r| == REMATCH_LIMIT
            && forall i :: 0 <= i < |r| ==> r[i] < |db.orders| && Precedes(db.orders, Opposite(o.side), r[i], x))
  {
    var o, ids := db.orders[id], Opponents(db, id);
    var all, r := Willing(db.orders, o, ids), Rematches(db, id);
    FetchSpec(db.orders, o.pair, Opposite(o.side));
    WillingSpec(db.orders, Opposite(o.side), o, ids);
    forall x: nat | x in all && x !in r
      ensures |r| == REMATCH_LIMIT
      ensures forall i :: 0 <= i < |r| ==> Precedes(db.orders, Opposite(o.side), r[i], x)
    {
      var k :| 0 <= k < |all| && all[k] == x;
      assert k >= |r|;
    }
  }

  /** In an uncrossed book, a resting limit order reschedules no limit order: the cascade is quiet. */
  lemma CascadeIsQuiet(db: Db, id: nat)
    requires id < |db.orders| && Resting(db.orders[id].status) && db.orders[id].kind != Market
    requires Uncrossed(db, db.orders[id].pair)
    ensures forall i :: 0 <= i < |Rematches(db, id)| ==>
              Rematches(db, id)[i] < |db.orders| && db.orders[Rematches(db, id)[i]].kind == Market
  {
    var o := db.orders[id];
    var all := Willing(db.orders, o, Opponents(db, id));
    FetchSpec(db.orders, o.pair, Opposite(o.side));
    forall i | 0 <= i < |all| ensures db.orders[all[i]].kind == Market {
      assert InBook(db.orders, o.pair, Opposite(o.side), all[i]);
      assert !Crossed(db.orders, o.pair, id, all[i]) && !Crossed(db.orders, o.pair, all[i], id);
    }
  }
}
