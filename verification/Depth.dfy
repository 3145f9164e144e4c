/** The aggregated order book shown to clients. */
module Depth {
  import opened Sums
  import opened Exchange
  import opened Matching

  datatype Level = Level(price: nat, quantity: int, count: int)

  function UnfilledAt(price: nat): Order -> int {
    (o: Order) => if o.price == Some(price) then Remaining(o) else 0
  }

  function CountAt(price: nat): Order -> int {
    (o: Order) => if o.price == Some(price) then 1 else 0
  }

  function UnfilledPriced(): Order -> int {
    (o: Order) => if o.price.Some? then Remaining(o) else 0
  }

  function LevelQuantity(): Level -> int {
    (l: Level) => l.quantity
  }

  ghost predicate Quoted(orders: seq<Order>, price: nat) {
    exists i :: 0 <= i < |orders| && orders[i].price == Some(price)
  }

  ghost predicate HasLevel(levels: seq<Level>, price: nat) {
    exists k :: 0 <= k < |levels| && levels[k].price == price
  }

  ghost predicate LevelOk(level: Level, orders: seq<Order>) {
    && level.quantity == Sum(orders, UnfilledAt(level.price))
    && level.count == Sum(orders, CountAt(level.price))
  }

  ghost predicate PricesDistinct(levels: seq<Level>) {
    forall k, l :: 0 <= k < l < |levels| ==> levels[k].price != levels[l].price
  }

  /** The levels are an index of the orders: one per quoted price, holding what stands at that price. */
  ghost predicate Indexes(levels: seq<Level>, orders: seq<Order>) {
    && PricesDistinct(levels)
    && (forall price: nat :: HasLevel(levels, price) <==> Quoted(orders, price))
    && (forall k :: 0 <= k < |levels| ==> LevelOk(levels[k], orders))
    && Sum(levels, LevelQuantity()) == Sum(orders, UnfilledPriced())
  }

  ghost predicate BestFirst(side: Side, orders: seq<Order>) {
    forall i, j :: 0 <= i < j < |orders| ==> !Ahead(side, orders[j].price, orders[i].price)
  }

  ghost predicate StrictlyBestFirst(side: Side, levels: seq<Level>) {
    forall k, l :: 0 <= k < l < |levels| ==> Ahead(side, Some(levels[k].price), Some(levels[l].price))
  }

  /** Where a price is in the map, in order of insertion; the length when it is absent. */
  function IndexOf(levels: seq<Level>, price: nat): (k: nat)
    ensures k <= |levels| && (k < |levels| ==> levels[k].price == price)
    ensures k == |levels| ==> forall i :: 0 <= i < |levels| ==> levels[i].price != price
  {
    if levels == [] || levels[0].price == price then 0 else 1 + IndexOf(levels[1..], price)
  }

  /** priceMap.set: quantity and count grow at a known price, a new price goes last. */
  function Add(levels: seq<Level>, price: nat, unfilled: int): seq<Level> {
    var k := IndexOf(levels, price);
    if k == |levels| then levels + [Level(price, unfilled, 1)]
    else levels[k := Level(price, levels[k].quantity + unfilled, levels[k].count + 1)]
  }

  lemma AddPrices(levels: seq<Level>, price: nat, unfilled: int)
    requires PricesDistinct(levels)
    ensures PricesDistinct(Add(levels, price, unfilled))
    ensures forall p: nat :: HasLevel(Add(levels, price, unfilled), p) <==> HasLevel(levels, p) || p == price
  {
    var levels', k := Add(levels, price, unfilled), IndexOf(levels, price);
    assert forall i :: 0 <= i < |levels| ==> levels'[i].price == levels[i].price;
    assert levels'[k].price == price;
    forall p: nat | HasLevel(levels, p) ensures HasLevel(levels', p) {
      var i :| 0 <= i < |levels| && levels[i].price == p;
      assert levels'[i].price == p;
    }
  }

  lemma QuotedAppend(orders: seq<Order>, o: Order)
    ensures forall p: nat :: Quoted(orders + [o], p) <==> Quoted(orders, p) || o.price == Some(p)
  {
    forall p: nat ensures Quoted(orders + [o], p) <==> Quoted(orders, p) || o.price == Some(p) {
      if Quoted(orders, p) {
        var i :| 0 <= i < |orders| && orders[i].price == Some(p);
        assert (orders + [o])[i].price == Some(p);
      }
      if o.price == Some(p) {
        assert (orders + [o])[|orders|].price == Some(p);
      }
    }
  }

  lemma {:induction false} NotQuoted(orders: seq<Order>, price: nat)
    requires !Quoted(orders, price)
    ensures Sum(orders, UnfilledAt(price)) == 0 && Sum(orders, CountAt(price)) == 0
  {
    if |orders| > 0 {
      var k := |orders| - 1;
      assert orders[k].price != Some(price);
      assert forall i :: 0 <= i < k ==> orders[..k][i] == orders[i];
      NotQuoted(orders[..k], price);
    }
  }

  lemma AddLevels(levels: seq<Level>, orders: seq<Order>, o: Order, k: nat)
    requires Indexes(levels, orders) && o.price.Some? && k < |Add(levels, o.price.value, Remaining(o))|
    ensures LevelOk(Add(levels, o.price.value, Remaining(o))[k], orders + [o])
  {
    var level := Add(levels, o.price.value, Remaining(o))[k];
    SumAppend(orders, o, UnfilledAt(level.price));
    SumAppend(orders, o, CountAt(level.price));
    if k < |levels| {
      assert LevelOk(levels[k], orders);
      assert k != IndexOf(levels, o.price.value) ==> levels[k].price != o.price.value;
    } else {
      assert !HasLevel(levels, o.price.value);
      NotQuoted(orders, o.price.value);
    }
  }

  lemma AddIndexes(levels: seq<Level>, orders: seq<Order>, o: Order)
    requires Indexes(levels, orders) && o.price.Some?
    ensures Indexes(Add(levels, o.price.value, Remaining(o)), orders + [o])
  {
    var price, unfilled := o.price.value, Remaining(o);
    var levels', k := Add(levels, price, unfilled), IndexOf(levels, price);
    AddPrices(levels, price, unfilled);
    QuotedAppend(orders, o);
    forall i | 0 <= i < |levels'| ensures LevelOk(levels'[i], orders + [o]) {
      AddLevels(levels, orders, o, i);
    }
    SumAppend(orders, o, UnfilledPriced());
    if k == |levels| {
      SumAppend(levels, levels'[k], LevelQuantity());
    } else {
      SumUpdate(levels, k, levels'[k], LevelQuantity());
    }
  }

  lemma SkipIndexes(levels: seq<Level>, orders: seq<Order>, o: Order)
    requires Indexes(levels, orders) && o.price.None?
    ensures Indexes(levels, orders + [o])
  {
    QuotedAppend(orders, o);
    forall i | 0 <= i < |levels| ensures LevelOk(levels[i], orders + [o]) {
      assert LevelOk(levels[i], orders);
      SumAppend(orders, o, UnfilledAt(levels[i].price));
      SumAppend(orders, o, CountAt(levels[i].price));
    }
    SumAppend(orders, o, UnfilledPriced());
  }

  lemma AddOrdered(side: Side, levels: seq<Level>, orders: seq<Order>, o: Order)
    requires Indexes(levels, orders) && o.price.Some?
    requires BestFirst(side, orders + [o]) && StrictlyBestFirst(side, levels)
    ensures StrictlyBestFirst(side, Add(levels, o.price.value, Remaining(o)))
  {
    forall k | 0 <= k < |levels| && levels[k].price != o.price.value
      ensures Ahead(side, Some(levels[k].price), o.price)
    {
      assert HasLevel(levels, levels[k].price);
      var i :| 0 <= i < |orders| && orders[i].price == Some(levels[k].price);
      assert (orders + [o])[i] == orders[i] && (orders + [o])[|orders|] == o;
      assert !Ahead(side, (orders + [o])[|orders|].price, (orders + [o])[i].price);
    }
  }

  lemma PrefixBestFirst(side: Side, orders: seq<Order>, o: Order)
    requires BestFirst(side, orders + [o])
    ensures BestFirst(side, orders)
  {
    forall i, j | 0 <= i < j < |orders| ensures !Ahead(side, orders[j].price, orders[i].price) {
      assert (orders + [o])[i] == orders[i] && (orders + [o])[j] == orders[j];
    }
  }

  ghost predicate KeepsOrder(levels: seq<Level>, orders: seq<Order>) {
    && (BestFirst(Buy, orders) ==> StrictlyBestFirst(Buy, levels))
    && (BestFirst(Sell, orders) ==> StrictlyBestFirst(Sell, levels))
  }

  function Turn(levels: seq<Level>, o: Order): seq<Level> {
    if o.price.Some? then Add(levels, o.price.value, Remaining(o)) else levels
  }

  lemma TurnKeepsIndex(levels: seq<Level>, orders: seq<Order>, o: Order)
    requires Indexes(levels, orders)
    ensures Indexes(Turn(levels, o), orders + [o])
  {
    if o.price.Some? {
      AddIndexes(levels, orders, o);
    } else {
      SkipIndexes(levels, orders, o);
    }
  }

  lemma TurnKeepsOrder(side: Side, levels: seq<Level>, orders: seq<Order>, o: Order)
    requires Indexes(levels, orders) && (BestFirst(side, orders) ==> StrictlyBestFirst(side, levels))
    ensures BestFirst(side, orders + [o]) ==> StrictlyBestFirst(side, Turn(levels, o))
  {
    if BestFirst(side, orders + [o]) {
      PrefixBestFirst(side, orders, o);
      if o.price.Some? {
        AddOrdered(side, levels, orders, o);
      }
    }
  }

  /** The map after a whole list of orders. */
  function Levels(orders: seq<Order>): seq<Level> {
    if |orders| == 0 then [] else Turn(Levels(orders[..|orders| - 1]), orders[|orders| - 1])
  }

  lemma {:induction false} LevelsFaithful(orders: seq<Order>)
    ensures Indexes(Levels(orders), orders) && KeepsOrder(Levels(orders), orders)
  {
    if |orders| > 0 {
      var front, o := orders[..|orders| - 1], orders[|orders| - 1];
      LevelsFaithful(front);
      TurnKeepsIndex(Levels(front), front, o);
      TurnKeepsOrder(Buy, Levels(front), front, o);
      TurnKeepsOrder(Sell, Levels(front), front, o);
      assert orders == front + [o];
    }
  }

  /**
   * aggregateOrderBook. Faithful: one level per quoted price, with the unfilled quantity and the
   * number of the orders at that price; sorted orders give strictly improving levels.
   */
  method AggregateOrderBook(orders: seq<Order>) returns (levels: seq<Level>)
    ensures Indexes(levels, orders) && KeepsOrder(levels, orders)
  {
    levels := [];
    for n := 0 to |orders|
      invariant levels == Levels(orders[..n])
    {
      var o := orders[n];
      assert orders[..n + 1][..n] == orders[..n];
      if o.price.Some? {
        levels := Add(levels, o.price.value, Remaining(o));
      }
    }
    assert orders[..|orders|] == orders;
    LevelsFaithful(orders);
  }
}
