/** What each market handler writes, field by field: rows, log entries and processing statuses. */
module Handlers {
  import opened Sums
  import opened Markets

  /** Markets other than m are as they were, and none is added or dropped. */
  predicate OnlyMarket(s: State, s': State, m: MarketId) {
    && |s'.markets| == |s.markets|
    && (forall n: MarketId :: n < |s.markets| && n != m ==> s'.markets[n] == s.markets[n])
  }

  // ---- Handlers called directly ----

  /** A registration adds one market that waits for approval, and two log entries; it fails without authorization. */
  lemma RegisterOutcome(s: State, authorized: bool)
    ensures
      var r, m := Register(s, authorized), |s.markets|;
      && r.ok == authorized
      && (!r.ok ==> r.state == s)
      && (r.ok ==>
            && |r.state.markets| == m + 1 && r.state.markets[..m] == s.markets
            && r.state.markets[m].status == PendingApproval
            && r.state.markets[m].approvedBy == None && r.state.markets[m].contract == None
            && r.state.log == s.log + [Entry(m, Registered), Entry(m, ApprovalRequested)]
            && r.state.processed == s.processed && r.state.decisions == s.decisions
            && r.state.deployments == s.deployments)
  {
  }

  /** Only a pending market is decided on; an approval names its approver and starts the activation. */
  lemma DecideOutcome(s: State, m: MarketId, approve: bool, actor: UserId, authorized: bool)
    ensures
      var r := Decide(s, m, approve, actor, authorized);
      && r.ok == (m < |s.markets| && s.markets[m].status == PendingApproval && authorized)
      && (!r.ok ==> r.state == s)
      && (r.ok ==>
            && OnlyMarket(s, r.state, m)
            && r.state.markets[m].status == (if approve then Activating else Denied)
            && r.state.markets[m].approvedBy == (if approve then Some(actor) else s.markets[m].approvedBy)
            && r.state.markets[m].contract == s.markets[m].contract
            && r.state.log == s.log + (if approve then [Entry(m, WasApproved), Entry(m, ActivationStarted)]
                                       else [Entry(m, WasRejected)])
            && r.state.decisions == s.decisions + [Decision(m, approve)]
            && r.state.processed == s.processed && r.state.deployments == s.deployments)
  {
  }

  lemma ActivateOutcome(s: State, m: MarketId)
    ensures
      var r := Activate(s, m);
      && r.ok == (m < |s.markets| && s.markets[m].status == Approved)
      && (!r.ok ==> r.state == s)
      && (r.ok ==>
            && OnlyMarket(s, r.state, m)
            && r.state.markets[m] == s.markets[m].(status := Activating)
            && r.state.log == s.log + [Entry(m, ActivationStarted)]
            && r.state == s.(markets := r.state.markets, log := r.state.log))
  {
  }

  /** Pausing pauses and archiving archives, whatever the status was. */
  lemma CloseOutcome(s: State, m: MarketId, archive: bool, authorized: bool)
    ensures
      var r := Close(s, m, archive, authorized);
      && r.ok == (authorized && m < |s.markets|)
      && (!r.ok ==> r.state == s)
      && (r.ok ==>
            && OnlyMarket(s, r.state, m)
            && (archive ==>
                  && r.state.markets[m] == s.markets[m].(status := Archived)
                  && r.state.log == s.log + [Entry(m, WasArchived)])
            && (!archive ==>
                  && r.state.markets[m] == s.markets[m].(status := Paused)
                  && r.state.log == s.log + [Entry(m, WasPaused)])
            && r.state == s.(markets := r.state.markets, log := r.state.log))
  {
  }

  /**
   * A deployment job calls out exactly when its market is activating. What was deployed is stored even
   * when a later write fails; the market is active, and logged so, only if none does.
   */
  lemma DeployOutcome(s: State, m: MarketId, outcome: Deployment)
    ensures
      var r, starting := Deploy(s, m, outcome), m < |s.markets| && s.markets[m].status == Activating;
      && r.ok == (m < |s.markets| && (starting ==> outcome.Deploys?))
      && (!starting ==> r.state == s)
      && (starting ==>
            && OnlyMarket(s, r.state, m)
            && r.state.deployments == s.deployments + [m]
            && r.state.markets[m].status == (if outcome.Deploys? then Active else Approved)
            && r.state.markets[m].approvedBy == s.markets[m].approvedBy
            && (!outcome.DeployFails? ==> r.state.markets[m].contract == Some(outcome.address))
            && (outcome.DeployFails? ==> r.state.markets[m].contract == s.markets[m].contract)
            && r.state.log == s.log + (if outcome.Deploys? then [Entry(m, WasActivated)] else [])
            && r.state.processed == s.processed && r.state.decisions == s.decisions)
  {
  }

  // ---- Deliveries ----

  /** The payload names a market that exists, and the context an actor. */
  predicate Loggable(s: State, d: Delivery) {
    && d.payload.Some? && d.payload.value.market.Some? && d.payload.value.market.value < |s.markets|
    && d.actor.Some?
  }

  /**
   * A polled event leaves one log entry, by its type, exactly when it is new, an approval or a
   * rejection, and loggable. Every new approval or rejection is recorded, as a failure if it left no entry.
   */
  lemma PollWrites(s: State, d: Delivery)
    requires d.channel == Poll
    ensures
      var s', heard := Receive(s, d), d.eventId !in s.processed && d.kind != OtherKind;
      && (s'.log != s.log <==> heard && Loggable(s, d))
      && (s'.log != s.log ==>
            var m := d.payload.value.market.value;
            && (d.kind == MarketApproved ==> s'.log == s.log + [Entry(m, WasApproved)])
            && (d.kind == MarketRejected ==> s'.log == s.log + [Entry(m, WasRejected)]))
      && (!heard ==> s' == s)
      && (heard ==> s'.processed == s.processed[d.eventId := if Loggable(s, d) then Success else Failure])
      && s' == s.(log := s'.log, processed := s'.processed)
  {
    if d.eventId !in s.processed && d.kind != OtherKind && Loggable(s, d) {
      assert |Receive(s, d).log| == |s.log| + 1;
    }
  }

  /**
   * A webhook leaves log entries exactly when it is new, an approval or a rejection by type, decides one
   * way in its payload and is loggable: one entry for hearing it, and those of the decision if the market
   * was pending and the actor authorized, which is also when it is recorded as a success.
   */
  lemma WebhookWrites(s: State, d: Delivery)
    requires d.channel == Webhook
    ensures
      var s', unseen := Receive(s, d), d.eventId !in s.processed && d.payload.Some?;
      var heard := && unseen && d.kind != OtherKind && Loggable(s, d)
                   && (d.payload.value.verdict == SaysApproved || d.payload.value.verdict == SaysRejected);
      && (s'.log != s.log <==> heard)
      && (!unseen ==> s' == s)
      && (unseen && d.kind == OtherKind ==> s' == s.(processed := s.processed[d.eventId := Skipped]))
      && (unseen && d.kind != OtherKind && !heard ==> s' == s.(processed := s.processed[d.eventId := Failure]))
      && (heard ==>
            var m := d.payload.value.market.value;
            var approved := d.payload.value.verdict == SaysApproved;
            var decides := s.markets[m].status == PendingApproval && d.authorized;
            && s'.processed == s.processed[d.eventId := if decides then Success else Failure]
            && s'.deployments == s.deployments && OnlyMarket(s, s', m)
            && (approved && decides ==>
                  && s'.log == s.log + [Entry(m, WasApproved), Entry(m, WasApproved), Entry(m, ActivationStarted)]
                  && s'.markets[m] == s.markets[m].(status := Activating, approvedBy := d.actor)
                  && s'.decisions == s.decisions + [Decision(m, true)])
            && (!approved && decides ==>
                  && s'.log == s.log + [Entry(m, WasRejected), Entry(m, WasRejected)]
                  && s'.markets[m] == s.markets[m].(status := Denied)
                  && s'.decisions == s.decisions + [Decision(m, false)])
            && (!decides ==>
                  && s'.log == s.log + [Entry(m, if approved then WasApproved else WasRejected)]
                  && s'.markets == s.markets && s'.decisions == s.decisions))
  {
    if d.eventId !in s.processed && d.kind != OtherKind && Loggable(s, d)
      && (d.payload.value.verdict == SaysApproved || d.payload.value.verdict == SaysRejected)
    {
      assert |Receive(s, d).log| > |s.log|;
    }
  }
}
