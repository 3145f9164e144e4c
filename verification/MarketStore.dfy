/**
 * The market services at work: the market table, the event log and the processed-events table, which
 * methods update in place, statement by statement. Every handler keeps the lifecycle of every market,
 * leaves the tables as the function of the same handler says, and may rely on what the lifecycle gives.
 */
module MarketTables {
  import opened Sums
  import opened Markets
  import opened Lifecycle

  class MarketStore {
    var markets: seq<Market>
    var log: seq<Entry>
    var processed: map<EventId, ProcessingStatus>
    ghost var decisions: seq<Decision>
    ghost var deployments: seq<MarketId>

    ghost function State(): State
      reads this
    {
      Markets.State(markets, log, processed, decisions, deployments)
    }

    /** The lifecycle of every market. */
    ghost predicate Valid()
      reads this
    {
      Ok(State())
    }

    constructor ()
      ensures Valid() && State() == START
    {
      markets, log, processed, decisions, deployments := [], [], map[], [], [];
    }

    // ---- Repositories and event broker ----

    /** The bare write: the lifecycle survives it exactly when the market's history fits the status. */
    method UpdateMarketStatus(m: MarketId, status: MarketStatus)
      requires m < |markets|
      modifies this`markets
      ensures State() == SetMarket(old(State()), m, old(markets[m]).(status := status))
      ensures old(Valid()) ==> (Valid() <==> StatusFits(old(State()), m, status))
    {
      ghost var s := State();
      markets := markets[m := markets[m].(status := status)];
      if Ok(s) {
        StatusKeepsOkIff(s, m, status);
      }
    }

    /** publishEvent: the log takes only entries of a known market by a known actor, and disturbs no market. */
    method PublishEvent(m: Option<MarketId>, kind: EventType, actor: Option<UserId>) returns (ok: bool)
      modifies this`log
      ensures ok == (m.Some? && m.value < |markets| && actor.Some?)
      ensures State() == if ok then Logged(old(State()), m.value, kind) else old(State())
      ensures old(Valid()) ==> Valid()
    {
      ghost var s := State();
      ok := m.Some? && m.value < |markets| && actor.Some?;
      if ok {
        log := log + [Entry(m.value, kind)];
        if Ok(s) {
          LoggedKeepsOk(s, m.value, kind);
        }
      }
    }

    /**
     * hasReachedState: some entry of the market's history has the kind. A market that stands has reached
     * every milestone on the way there.
     */
    method HasReachedState(m: MarketId, kind: EventType) returns (reached: bool)
      requires Valid()
      ensures reached <==> Entry(m, kind) in log
      ensures m < |markets| && kind in REQUESTED ==> reached
      ensures m < |markets| && markets[m].approvedBy.Some? && kind in APPROVED ==> reached
      ensures m < |markets| && markets[m].status == Active && kind in STARTED ==> reached
    {
      reached := false;
      for i := 0 to |log|
        invariant reached <==> Entry(m, kind) in log[..i]
      {
        assert log[..i + 1] == log[..i] + [log[i]];
        if log[i].market == m && log[i].kind == kind {
          reached := true;
        }
      }
      assert log[..|log|] == log;
      if m < |markets| {
        HistoryOf(State(), m, kind);
      }
    }

    method IsEventProcessed(id: EventId) returns (known: bool)
      ensures known <==> id in processed
    {
      known := id in processed;
    }

    /** recordProcessedEvent: insert, or overwrite the status on conflict. */
    method RecordProcessedEvent(id: EventId, status: ProcessingStatus)
      requires Valid()
      modifies this`processed
      ensures Valid() && State() == Record(old(State()), id, status)
    {
      RecordKeepsOk(State(), id, status);
      processed := processed[id := status];
    }

    // ---- Market service ----

    method RegisterMarket(authorized: bool, actor: UserId) returns (ok: bool)
      requires Valid()
      modifies this
      ensures Valid() && Register(old(State()), authorized) == Result(State(), ok)
      ensures ok ==> |markets| == |old(markets)| + 1 && Decisions(State(), |old(markets)|) == 0
    {
      if !authorized {
        return false;
      }
      RegisterKeepsOk(State());
      var m := |markets|;
      markets := markets + [Market(Draft, None, None)];
      ok := PublishEvent(Some(m), Registered, Some(actor));
      UpdateMarketStatus(m, PendingApproval);
      ok := PublishEvent(Some(m), ApprovalRequested, Some(actor));
      MarketFacts(State(), m);
    }

    /** Only a market with an applied approval is activated. */
    method ActivateMarket(m: MarketId, actor: UserId) returns (ok: bool)
      requires Valid()
      modifies this
      ensures Valid() && Activate(old(State()), m) == Result(State(), ok)
      ensures ok ==> markets[m].approvedBy.Some? && Decision(m, false) !in decisions
    {
      if m >= |markets| || markets[m].status != Approved {
        return false;
      }
      ActivateKeepsOk(State(), m);
      UpdateMarketStatus(m, Activating);
      ok := PublishEvent(Some(m), ActivationStarted, Some(actor));
      assert MarketOk(State(), m);
      MarketFacts(State(), m);
    }

    /** The first decision on a market is the last; a rejected market has no contract. */
    method ProcessApprovalDecision(m: MarketId, approve: bool, actor: UserId, authorized: bool) returns (ok: bool)
      requires Valid()
      modifies this
      ensures Valid() && Decide(old(State()), m, approve, actor, authorized) == Result(State(), ok)
      ensures ok ==> old(Decisions(State(), m)) == 0 && Decisions(State(), m) == 1
      ensures ok ==> if approve then markets[m].status == Activating && markets[m].approvedBy == Some(actor)
                     else markets[m].status == Denied && markets[m].contract.None?
      ensures m < |markets| && Decisions(State(), m) == 1 && old(Decisions(State(), m)) == 1 ==> !ok
    {
      if m >= |markets| || markets[m].status != PendingApproval || !authorized {
        return false;
      }
      MarketFacts(State(), m);
      DecideKeepsOk(State(), m, approve, actor, authorized);
      ghost var s := State();
      SumAppend(decisions, Decision(m, approve), DecidedOn(m));
      decisions := decisions + [Decision(m, approve)];
      if approve {
        ApproveKeepsOk(s, m, actor);
        markets := markets[m := markets[m].(status := Approved, approvedBy := Some(actor))];
        ok := PublishEvent(Some(m), WasApproved, Some(actor));
        ok := ActivateMarket(m, actor);
      } else {
        UpdateMarketStatus(m, Denied);
        ok := PublishEvent(Some(m), WasRejected, Some(actor));
        assert decisions[|decisions| - 1] == Decision(m, false);
        MarketFacts(State(), m);
      }
    }

    /** pauseMarket and archiveMarket. */
    method CloseMarket(m: MarketId, archive: bool, actor: UserId, authorized: bool) returns (ok: bool)
      requires Valid()
      modifies this
      ensures Valid() && Close(old(State()), m, archive, authorized) == Result(State(), ok)
    {
      if !authorized || m >= |markets| {
        return false;
      }
      CloseKeepsOk(State(), m, archive, authorized);
      UpdateMarketStatus(m, if archive then Archived else Paused);
      ok := PublishEvent(Some(m), if archive then WasArchived else WasPaused, Some(actor));
    }

    // ---- Token deployment worker ----

    /** Deploys only for an approved market whose activation was started, and no more often than that. */
    method HandleTokenDeployment(m: MarketId, actor: UserId, outcome: Deployment) returns (ok: bool)
      requires Valid()
      modifies this
      ensures Valid() && Deploy(old(State()), m, outcome) == Result(State(), ok)
      ensures deployments != old(deployments) ==>
                && m < |markets| && markets[m].approvedBy.Some? && Decision(m, false) !in decisions
                && Calls(State(), m) == old(Calls(State(), m)) + 1 <= Starts(State(), m)
      ensures m < |markets| && markets[m].status == Active ==> InOrder(log, m, STARTED) && markets[m].contract.Some?
    {
      if m < |markets| {
        MarketFacts(State(), m);
      }
      if m >= |markets| {
        return false;
      }
      if markets[m].status != Activating {
        return true;
      }
      ghost var s := State();
      DeployKeepsOk(s, m, outcome);
      ApprovedToDeploy(s, m);
      SumAppend(deployments, m, CallFor(m));
      deployments := deployments + [m];
      ok := false;
      if !outcome.DeployFails? {
        markets := markets[m := markets[m].(status := Active, contract := Some(outcome.address))];
      }
      if outcome.Deploys? {
        ok := PublishEvent(Some(m), WasActivated, Some(actor));
      } else {
        UpdateMarketStatus(m, Approved);
      }
      assert Deploy(s, m, outcome) == Result(State(), ok);
      MarketFacts(State(), m);
    }

    // ---- Webhook and poller ----

    method HandleEntityPermissionDecision(m: Option<MarketId>, approve: bool, actor: Option<UserId>) returns (ok: bool)
      requires Valid()
      modifies this`log
      ensures Valid() && ok == LogDecision(old(State()), m, approve, actor).Some?
      ensures State() == LogDecision(old(State()), m, approve, actor).GetOr(old(State()))
    {
      ok := PublishEvent(m, if approve then WasApproved else WasRejected, actor);
    }

    method HandleMarketApprovalDecision(d: Delivery) returns (ok: bool)
      requires Valid() && d.payload.Some?
      modifies this
      ensures Valid() && HandleDecision(old(State()), d) == Result(State(), ok)
    {
      var payload := d.payload.value;
      if payload.market.None? || payload.verdict == SaysNothing {
        return false;
      }
      if payload.verdict != SaysApproved && payload.verdict != SaysRejected {
        return false;
      }
      var approve := payload.verdict == SaysApproved;
      ok := HandleEntityPermissionDecision(payload.market, approve, d.actor);
      if ok {
        ok := ProcessApprovalDecision(payload.market.value, approve, d.actor.value, d.authorized);
      }
    }

    /** A second delivery of an event changes nothing. */
    method HandleWebhook(d: Delivery)
      requires Valid()
      modifies this
      ensures Valid() && State() == ReceiveWebhook(old(State()), d)
      ensures d.eventId in old(processed) ==> State() == old(State())
      ensures d.payload.Some? ==> d.eventId in processed
    {
      if d.payload.None? {
        return;
      }
      var known := IsEventProcessed(d.eventId);
      if known {
        return;
      }
      if d.kind == OtherKind {
        RecordProcessedEvent(d.eventId, Skipped);
        return;
      }
      var ok := HandleMarketApprovalDecision(d);
      RecordProcessedEvent(d.eventId, if ok then Success else Failure);
    }

    /** A second delivery changes nothing, and no delivery changes a market. */
    method ProcessEntityPermissionEvent(d: Delivery)
      requires Valid()
      modifies this
      ensures Valid() && State() == ReceivePoll(old(State()), d)
      ensures d.eventId in old(processed) ==> State() == old(State())
      ensures markets == old(markets) && decisions == old(decisions)
    {
      var known := IsEventProcessed(d.eventId);
      if known || d.kind == OtherKind {
        return;
      }
      var ok := false;
      if d.payload.Some? {
        ok := HandleEntityPermissionDecision(d.payload.value.market, d.kind == MarketApproved, d.actor);
      }
      RecordProcessedEvent(d.eventId, if ok then Success else Failure);
    }

    /** The loop of pollEntityPermissionsEvents over what the service answered: polling never decides. */
    method PollEvents(events: seq<Delivery>)
      requires Valid() && forall i :: 0 <= i < |events| ==> events[i].channel == Poll
      modifies this
      ensures Valid() && State() == Run(old(State()), Deliveries(events))
      ensures markets == old(markets) && decisions == old(decisions)
    {
      var i := 0;
      while i < |events|
        invariant 0 <= i <= |events| && Valid()
        invariant markets == old(markets) && decisions == old(decisions)
        invariant Run(State(), Deliveries(events[i..])) == Run(old(State()), Deliveries(events))
      {
        assert Deliveries(events[i..])[1..] == Deliveries(events[i + 1..]);
        ProcessEntityPermissionEvent(events[i]);
        i := i + 1;
      }
    }
  }

  lemma ApprovedToDeploy(s: State, m: MarketId)
    requires Ok(s) && m < |s.markets| && s.markets[m].status == Activating
    ensures s.markets[m].approvedBy.Some? && Decision(m, false) !in s.decisions
  {
    assert MarketOk(s, m);
    MarketFacts(s, m);
  }

  ghost function Deliveries(events: seq<Delivery>): seq<Step> {
    seq(|events|, i requires 0 <= i < |events| => Deliver(events[i]))
  }
}
