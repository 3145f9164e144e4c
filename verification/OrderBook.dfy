/** The book query returns exactly the resting orders of one side, each once, in price-time order. */
module OrderBook {
  import opened Exchange
  import opened Matching

  ghost predicate Sorted(orders: seq<Order>, side: Side, ids: seq<nat>)
    requires forall i :: 0 <= i < |ids| ==> ids[i] < |orders|
  {
    forall i, j :: 0 <= i < j < |ids| ==> Precedes(orders, side, ids[i], ids[j])
  }

  ghost predicate Distinct(ids: seq<nat>) {
    forall i, j :: 0 <= i < j < |ids| ==> ids[i] != ids[j]
  }

  lemma PrependSorted(orders: seq<Order>, side: Side, x: nat, ids: seq<nat>)
    requires x < |orders| && forall i :: 0 <= i < |ids| ==> ids[i] < |orders|
    requires Sorted(orders, side, ids) && Distinct(ids)
    requires forall i :: 0 <= i < |ids| ==> Precedes(orders, side, x, ids[i]) && x != ids[i]
    ensures Sorted(orders, side, [x] + ids) && Distinct([x] + ids)
  {
  }

  lemma {:induction false} InsertSorted(orders: seq<Order>, side: Side, id: nat, ids: seq<nat>)
    requires id < |orders| && forall i :: 0 <= i < |ids| ==> ids[i] < id
    requires Sorted(orders, side, ids) && Distinct(ids)
    ensures forall i :: 0 <= i < |Insert(orders, side, id, ids)| ==> Insert(orders, side, id, ids)[i] < |orders|
    ensures Sorted(orders, side, Insert(orders, side, id, ids)) && Distinct(Insert(orders, side, id, ids))
  {
    InsertMembers(orders, side, id, ids);
    if ids == [] || Precedes(orders, side, id, ids[0]) {
      PrependSorted(orders, side, id, ids);
    } else {
      var rest := Insert(orders, side, id, ids[1..]);
      InsertSorted(orders, side, id, ids[1..]);
      InsertMembers(orders, side, id, ids[1..]);
      forall i | 0 <= i < |rest| ensures Precedes(orders, side, ids[0], rest[i]) && ids[0] != rest[i] {
        assert rest[i] in rest;
        if rest[i] != id {
          var k :| 0 <= k < |ids[1..]| && ids[1..][k] == rest[i];
          assert Precedes(orders, side, ids[0], ids[k + 1]);
        }
      }
      PrependSorted(orders, side, ids[0], rest);
    }
  }

  /** The specification of the first n rows of the query. */
  ghost predicate BookOf(orders: seq<Order>, pair: nat, side: Side, n: nat, ids: seq<nat>)
    requires n <= |orders| && forall i :: 0 <= i < |ids| ==> ids[i] < n
  {
    && Sorted(orders, side, ids) && Distinct(ids)
    && forall id: nat :: id in ids <==> id < n && InBook(orders, pair, side, id)
  }

  lemma EnterKeepsBook(orders: seq<Order>, pair: nat, side: Side, n: nat, ids: seq<nat>)
    requires n < |orders| && (forall i :: 0 <= i < |ids| ==> ids[i] < n) && BookOf(orders, pair, side, n, ids)
    ensures BookOf(orders, pair, side, n + 1, Enter(orders, pair, side, n, ids))
  {
    if InBook(orders, pair, side, n) {
      InsertMembers(orders, side, n, ids);
      InsertSorted(orders, side, n, ids);
    }
  }

  lemma {:induction false} BookUpToSpec(orders: seq<Order>, pair: nat, side: Side, n: nat)
    requires n <= |orders|
    ensures BookOf(orders, pair, side, n, BookUpTo(orders, pair, side, n))
  {
    if n > 0 {
      BookUpToSpec(orders, pair, side, n - 1);
      EnterKeepsBook(orders, pair, side, n - 1, BookUpTo(orders, pair, side, n - 1));
    }
  }

  /** The whole book is the set of resting orders of that side, without repetition, best first. */
  lemma BookSpec(orders: seq<Order>, pair: nat, side: Side)
    ensures Sorted(orders, side, Book(orders, pair, side)) && Distinct(Book(orders, pair, side))
    ensures forall id: nat :: id in Book(orders, pair, side) <==> InBook(orders, pair, side, id)
  {
    BookUpToSpec(orders, pair, side, |orders|);
  }

  /** What the matching job fetches: the best hundred, and all of them when there are no more. */
  lemma FetchSpec(orders: seq<Order>, pair: nat, side: Side)
    ensures Sorted(orders, side, Fetch(orders, pair, side)) && Distinct(Fetch(orders, pair, side))
    ensures forall id: nat :: id in Fetch(orders, pair, side) ==> InBook(orders, pair, side, id)
    ensures |Book(orders, pair, side)| <= BOOK_LIMIT ==> Fetch(orders, pair, side) == Book(orders, pair, side)
    ensures forall i, id: nat :: 0 <= i < |Fetch(orders, pair, side)| && InBook(orders, pair, side, id)
                            && id !in Fetch(orders, pair, side)
                            ==> Precedes(orders, side, Fetch(orders, pair, side)[i], id)
  {
    BookSpec(orders, pair, side);
    var all, ids := Book(orders, pair, side), Fetch(orders, pair, side);
    forall i, id: nat | 0 <= i < |ids| && InBook(orders, pair, side, id) && id !in ids
      ensures Precedes(orders, side, ids[i], id)
    {
      var k := |ids|;
      assert all == ids + all[k..] && id in all;
      var j :| 0 <= j < |all[k..]| && all[k..][j] == id;
      assert Precedes(orders, side, all[i], all[k + j]);
    }
  }

  /** The order of two rows in the book, read off their prices and their age. */
  predicate InTurn(orders: seq<Order>, side: Side, i: nat, j: nat)
    requires i < |orders| && j < |orders|
  {
    && i != j
    && match (orders[i].price, orders[j].price)
       case (None, None) => i < j
       case (None, Some(_)) => side == Buy
       case (Some(_), None) => side == Sell
       case (Some(a), Some(b)) => if a == b then i < j else if side == Buy then a > b else a < b
  }

  /**
   * The fetched rows, column by column: OPEN or PARTIAL, of that pair and side, at most a hundred, bids
   * from the highest price and asks from the lowest, a missing price first among bids and last among
   * asks, the earlier row first at one price. A row that is not fetched comes after a hundred others.
   */
  lemma FetchInTurn(orders: seq<Order>, pair: nat, side: Side)
    ensures
      var ids := Fetch(orders, pair, side);
      && |ids| <= 100
      && (forall i :: 0 <= i < |ids| ==>
            && orders[ids[i]].pair == pair && orders[ids[i]].side == side
            && (orders[ids[i]].status == Open || orders[ids[i]].status == Partial))
      && (forall i, j :: 0 <= i < j < |ids| ==> InTurn(orders, side, ids[i], ids[j]))
      && (forall id: nat ::
            id < |orders| && orders[id].pair == pair && orders[id].side == side
            && (orders[id].status == Open || orders[id].status == Partial) && id !in ids ==>
            |ids| == 100 && forall i :: 0 <= i < |ids| ==> InTurn(orders, side, ids[i], id))
  {
    FetchSpec(orders, pair, side);
    BookSpec(orders, pair, side);
    var ids := Fetch(orders, pair, side);
    forall i | 0 <= i < |ids| ensures InBook(orders, pair, side, ids[i]) {
      assert ids[i] in ids;
    }
    forall id: nat | InBook(orders, pair, side, id) && id !in ids
      ensures |ids| == 100 && forall i :: 0 <= i < |ids| ==> InTurn(orders, side, ids[i], id)
    {
      assert id in Book(orders, pair, side);
    }
  }
}
