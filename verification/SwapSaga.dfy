/** A swap's lock over any sequence of attempts: kept, spent once or returned once, and exactly when. */
module SwapSaga {
  import opened Sums
  import opened Amounts
  import opened Ledger
  import opened Exchange
  import opened Solvency

  /** Attempts numbered from made on, of at most most. */
  function Saga(db: Db, id: nat, made: nat, most: nat, events: seq<AttemptEvent>): (db': Db)
    ensures |db'.swaps| == |db.swaps|
    decreases |events|
  {
    if events == [] then db
    else Saga(SwapAttempt(db, id, made, most, events[0]).db, id, made + 1, most, events[1..])
  }

  /** The swap may start: unfinished, positive, between two tokens, its lock in place. */
  predicate Funded(db: Db, id: nat) {
    && id < |db.swaps| && Unfinished(db.swaps[id].status)
    && db.swaps[id].source != db.swaps[id].target && db.swaps[id].sourceAmount > 0
    && Source(db, id) in db.balances && db.balances[Source(db, id)].locked >= db.swaps[id].sourceAmount
  }

  function Source(db: Db, id: nat): Account
    requires id < |db.swaps|
  {
    Account(db.swaps[id].user, db.swaps[id].source)
  }

  function Target(db: Db, id: nat): Account
    requires id < |db.swaps|
  {
    Account(db.swaps[id].user, db.swaps[id].target)
  }

  /** Every balance differs from before by the given amounts on the swap's two accounts, and no other. */
  ghost predicate Moved(
    before: Balances, after: Balances, source: Account, target: Account,
    sourceLocked: int, sourceAvailable: int, targetAvailable: int)
    requires source != target
  {
    forall a: Account ::
      && Read(after, a).locked == Read(before, a).locked + (if a == source then sourceLocked else 0)
      && Read(after, a).available == Read(before, a).available
           + (if a == source then sourceAvailable else if a == target then targetAvailable else 0)
  }

  /** Unfinished with the lock intact, completed with it spent once, or failed with it returned once. */
  ghost predicate ConsumedAtMostOnce(db: Db, db': Db, id: nat)
    requires Funded(db, id)
  {
    var s, source, target := db.swaps[id], Source(db, id), Target(db, id);
    && |db'.swaps| == |db.swaps|
    && match db'.swaps[id].status
       case Completed => Moved(db.balances, db'.balances, source, target, -(s.sourceAmount as int), 0, s.targetAmount)
       case Failed => Moved(db.balances, db'.balances, source, target, -(s.sourceAmount as int), s.sourceAmount, 0)
       case other => Unfinished(other) && db'.balances == db.balances
  }

  predicate Ends(event: AttemptEvent, made: nat, most: nat) {
    event != BridgeFails || made + 1 >= most
  }

  /** The first attempt that ends the swap fails after marking it completed. */
  predicate EndsInFault(made: nat, most: nat, events: seq<AttemptEvent>)
    decreases |events|
  {
    && events != []
    && if Ends(events[0], made, most) then events[0] == FailsAfterwards
       else EndsInFault(made + 1, most, events[1..])
  }

  lemma {:induction false} FinishedAbsorbs(db: Db, id: nat, made: nat, most: nat, events: seq<AttemptEvent>)
    requires id < |db.swaps| && !Unfinished(db.swaps[id].status)
    ensures Saga(db, id, made, most, events) == db
    decreases |events|
  {
    if events != [] {
      FinishedAbsorbs(db, id, made + 1, most, events[1..]);
    }
  }

  /** Once an attempt failed after completing, the lock is gone at least once too often. */
  ghost predicate Overdrawn(db: Db, db': Db, id: nat)
    requires Funded(db, id)
  {
    var amount, source := db.swaps[id].sourceAmount, Source(db, id);
    && id < |db'.swaps| && db'.swaps[id].(status := Queued) == db.swaps[id].(status := Queued)
    && source in db'.balances
    && db'.balances[source].locked <= db.balances[source].locked - amount
    && db'.balances[source].available + db'.balances[source].locked
         <= db.balances[source].available + db.balances[source].locked - amount
    && (db'.swaps[id].status == Completed ==> db'.balances[source].locked <= db.balances[source].locked - 2 * amount)
  }

  lemma OverdrawnStays(db: Db, db': Db, id: nat, made: nat, most: nat, event: AttemptEvent)
    requires Funded(db, id) && Overdrawn(db, db', id)
    ensures Overdrawn(db, SwapAttempt(db', id, made, most, event).db, id)
  {
  }

  lemma {:induction false} OverdrawnSaga(db: Db, db': Db, id: nat, made: nat, most: nat, events: seq<AttemptEvent>)
    requires Funded(db, id) && Overdrawn(db, db', id)
    ensures Overdrawn(db, Saga(db', id, made, most, events), id)
    decreases |events|
  {
    if events != [] {
      OverdrawnStays(db, db', id, made, most, events[0]);
      OverdrawnSaga(db, SwapAttempt(db', id, made, most, events[0]).db, id, made + 1, most, events[1..]);
    }
  }

  lemma OverdrawnIsNotOnce(db: Db, db': Db, id: nat)
    requires Funded(db, id) && Overdrawn(db, db', id)
    ensures !ConsumedAtMostOnce(db, db', id)
  {
    var a := Source(db, id);
    assert Read(db'.balances, a) == db'.balances[a] && Read(db.balances, a) == db.balances[a];
  }

  /** An attempt that does not end the swap leaves it funded and every balance alone. */
  lemma RetryKeepsLock(db: Db, id: nat, made: nat, most: nat)
    requires Funded(db, id) && made + 1 < most
    ensures
      var db' := SwapAttempt(db, id, made, most, BridgeFails).db;
      db' == SetSwapStatus(db, id, Queued) && Funded(db', id)
  {
  }

  lemma EndingAttempt(db: Db, id: nat, made: nat, most: nat, event: AttemptEvent)
    requires Funded(db, id) && Ends(event, made, most)
    ensures
      var db' := SwapAttempt(db, id, made, most, event).db;
      if event == FailsAfterwards then Overdrawn(db, db', id)
      else !Unfinished(db'.swaps[id].status) && ConsumedAtMostOnce(db, db', id)
  {
  }

  /**
   * After any attempts, the lock has been consumed at most once, consistently with the swap's status,
   * exactly when the attempt that ended the swap did not fail after marking it completed.
   */
  lemma {:induction false} SagaConsumesOnceIff(db: Db, id: nat, made: nat, most: nat, events: seq<AttemptEvent>)
    requires Funded(db, id)
    ensures ConsumedAtMostOnce(db, Saga(db, id, made, most, events), id) <==> !EndsInFault(made, most, events)
    decreases |events|
  {
    if events != [] {
      var db' := SwapAttempt(db, id, made, most, events[0]).db;
      if !Ends(events[0], made, most) {
        RetryKeepsLock(db, id, made, most);
        SagaConsumesOnceIff(db', id, made + 1, most, events[1..]);
      } else {
        EndingAttempt(db, id, made, most, events[0]);
        if events[0] == FailsAfterwards {
          OverdrawnSaga(db, db', id, made + 1, most, events[1..]);
          OverdrawnIsNotOnce(db, Saga(db', id, made + 1, most, events[1..]), id);
        } else {
          FinishedAbsorbs(db', id, made + 1, most, events[1..]);
        }
      }
    }
  }

  /**
   * Such a fault pays twice when other locks of the account can be drawn on: the swap goes back to
   * QUEUED with its lock spent, and the next attempt spends and credits again.
   */
  lemma LateFailurePaysTwice(db: Db, id: nat, most: nat)
    requires Funded(db, id) && most > 1
    requires db.balances[Source(db, id)].locked >= 2 * db.swaps[id].sourceAmount
    ensures
      var s, db' := db.swaps[id], Saga(db, id, 0, most, [FailsAfterwards, Completes]);
      && db'.swaps[id] == s.(status := Completed)
      && Moved(db.balances, db'.balances, Source(db, id), Target(db, id), -2 * s.sourceAmount, 0, 2 * s.targetAmount)
  {
    var db1 := SwapAttempt(db, id, 0, most, FailsAfterwards).db;
    SettleMoves(db.balances, db.swaps[id]);
    SettleMoves(db1.balances, db1.swaps[id]);
    assert [FailsAfterwards, Completes][1..] == [Completes] && [Completes][1..] == [];
    assert Saga(db, id, 0, most, [FailsAfterwards, Completes]) == Saga(db1, id, 1, most, [Completes]);
    assert Saga(db1, id, 1, most, [Completes]) == SwapAttempt(db1, id, 1, most, Completes).db;
  }

  lemma SettleMoves(b: Balances, s: Swap)
    requires s.source != s.target && Account(s.user, s.source) in b
    requires b[Account(s.user, s.source)].locked >= s.sourceAmount
    ensures Settle(b, s).Some? && Account(s.user, s.source) in Settle(b, s).value
    ensures Moved(b, Settle(b, s).value, Account(s.user, s.source), Account(s.user, s.target),
                  -(s.sourceAmount as int), 0, s.targetAmount)
  {
  }

  /** When only the bridge can fail, the attempts allowed are enough to finish the swap. */
  lemma {:induction false} SagaFinishes(db: Db, id: nat, made: nat, most: nat, events: seq<AttemptEvent>)
    requires Funded(db, id) && events != [] && made + |events| >= most
    requires FailsAfterwards !in events
    ensures !Unfinished(Saga(db, id, made, most, events).swaps[id].status)
    decreases |events|
  {
    var db' := SwapAttempt(db, id, made, most, events[0]).db;
    if Ends(events[0], made, most) {
      EndingAttempt(db, id, made, most, events[0]);
      FinishedAbsorbs(db', id, made + 1, most, events[1..]);
    } else {
      RetryKeepsLock(db, id, made, most);
      SagaFinishes(db', id, made + 1, most, events[1..]);
    }
  }

  /** A sound exchange funds every unfinished swap with a positive amount. */
  lemma SoundFunds(db: Db, id: nat)
    requires Sound(db) && id < |db.swaps| && Unfinished(db.swaps[id].status) && db.swaps[id].sourceAmount > 0
    ensures Funded(db, id)
  {
    var a := Source(db, id);
    SumMember(db.swaps, SwapDebt(a), id);
    SumNonNegative(db.orders, OrderDebt(db.pairs, a));
    assert Slack(db, a) >= 0;
  }

  /**
   * A request with the server's quote, from end to end: completed at any attempt, it costs the amount
   * asked and credits that amount less exactly the quoted fees, rescaled; an attempt that ends it
   * otherwise restores every balance, and one that does not leaves the request as it was.
   */
  lemma QuotedSwapSettles(db: Db, input: SwapInput, made: nat, most: nat, event: AttemptEvent)
    requires RequestSwap(db, input, true).ok && input.quote.None? && event != FailsAfterwards
    ensures
      var requested, id := RequestSwap(db, input, true).db, |db.swaps|;
      var fees := QuoteFees(input.amount);
      var net := input.amount - fees.platform - fees.bridge - fees.network;
      var source, target := Account(input.user, input.source), Account(input.user, input.target);
      var attempted := SwapAttempt(requested, id, made, most, event).db;
      && net > 0
      && if !Ends(event, made, most) then attempted == requested
         else if event == Completes then
           Moved(db.balances, attempted.balances, source, target,
                 0, -(input.amount as int), ConvertAmount(net, input.sourceDecimals, input.targetDecimals))
         else attempted.balances == db.balances
  {
    var requested, id := RequestSwap(db, input, true).db, |db.swaps|;
    var source := Account(input.user, input.source);
    assert requested.swaps[id].sourceAmount == input.amount && requested.swaps[id].status == Queued;
    SettleMoves(requested.balances, requested.swaps[id]);
    assert requested.balances[source := db.balances[source]] == db.balances;
    assert requested.swaps[id := requested.swaps[id]] == requested.swaps;
  }

  /**
   * In numbers: a swap of a 6-decimal token into an 18-decimal one credits a million million times the
   * amount less a quarter percent, fifteen hundredths of a percent and a thousand units.
   */
  lemma QuotedSwapInNumbers(db: Db, input: SwapInput, made: nat, most: nat)
    requires RequestSwap(db, input, true).ok && input.quote.None?
    requires input.sourceDecimals == 6 && input.targetDecimals == 18
    ensures
      var requested, id := RequestSwap(db, input, true).db, |db.swaps|;
      var net := input.amount - input.amount * 25 / 10_000 - input.amount * 15 / 10_000 - 1000;
      && net > 0
      && Moved(db.balances, SwapAttempt(requested, id, made, most, Completes).db.balances,
               Account(input.user, input.source), Account(input.user, input.target),
               0, -(input.amount as int), net * 1_000_000_000_000)
  {
    QuotedSwapSettles(db, input, made, most, Completes);
    ConvertSixEighteen(input.amount - TotalFee(input.amount));
  }

  /**
   * A refused swap request leaves a lock behind exactly when it got as far as a server quote for an
   * amount that does not exceed its fees: at most 1003 units.
   */
  lemma FailedRequestStrandsIff(db: Db, input: SwapInput, usable: bool)
    ensures
      var r := RequestSwap(db, input, usable);
      var a := Account(input.user, input.source);
      !r.ok && r.db != db
      <==> && input.source != input.target && usable && input.quote.None? && 0 < input.amount <= 1003
           && a in db.balances && db.balances[a].available >= input.amount
    ensures
      var r := RequestSwap(db, input, usable);
      var a := Account(input.user, input.source);
      !r.ok && r.db != db ==> Slack(r.db, a) == Slack(db, a) + input.amount && r.db.swaps == db.swaps
  {
    QuoteExistsIff(input.amount, input.sourceDecimals, input.targetDecimals);
  }
}
