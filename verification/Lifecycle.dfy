/** What holds of every market in every run, handlers taken one at a time. */
module Lifecycle {
  import opened Sums
  import opened Markets

  // ---- The log ----

  /** The log mentions the market with these kinds, in this order, possibly with other entries between. */
  ghost predicate InOrder(log: seq<Entry>, m: MarketId, kinds: seq<EventType>)
    decreases |log|
  {
    if kinds == [] then true
    else if log == [] then false
    else
      var front := log[..|log| - 1];
      || InOrder(front, m, kinds)
      || (log[|log| - 1] == Entry(m, kinds[|kinds| - 1]) && InOrder(front, m, kinds[..|kinds| - 1]))
  }

  lemma LogGrows(log: seq<Entry>, e: Entry, m: MarketId, kinds: seq<EventType>)
    ensures InOrder(log, m, kinds) ==> InOrder(log + [e], m, kinds)
    ensures InOrder(log, m, kinds) && e.market == m ==> InOrder(log + [e], m, kinds + [e.kind])
  {
    assert (log + [e])[..|log|] == log;
    assert (kinds + [e.kind])[..|kinds|] == kinds;
  }

  // ---- Counts per market ----

  function DecidedOn(m: MarketId): Decision -> int {
    (d: Decision) => if d.market == m then 1 else 0
  }

  function ApprovalOf(m: MarketId): Decision -> int {
    (d: Decision) => if d.market == m && d.approve then 1 else 0
  }

  function StartOf(m: MarketId): Entry -> int {
    (e: Entry) => if e == Entry(m, ActivationStarted) then 1 else 0
  }

  function CallFor(m: MarketId): MarketId -> int {
    (n: MarketId) => if n == m then 1 else 0
  }

  ghost function Decisions(s: State, m: MarketId): int { Sum(s.decisions, DecidedOn(m)) }
  ghost function Approvals(s: State, m: MarketId): int { Sum(s.decisions, ApprovalOf(m)) }
  ghost function Starts(s: State, m: MarketId): int { Sum(s.log, StartOf(m)) }
  ghost function Calls(s: State, m: MarketId): int { Sum(s.deployments, CallFor(m)) }

  const REQUESTED := [Registered, ApprovalRequested]
  const APPROVED := [Registered, ApprovalRequested, WasApproved]
  const STARTED := [Registered, ApprovalRequested, WasApproved, ActivationStarted]

  predicate Granted(status: MarketStatus) {
    status == Approved || status == Activating || status == Active
  }

  /** The lifecycle invariant of one market. */
  ghost predicate MarketOk(s: State, m: MarketId)
    requires m < |s.markets|
  {
    var row := s.markets[m];
    && row.status != Draft
    && 0 <= Approvals(s, m) <= Decisions(s, m) <= 1
    && (row.status == PendingApproval ==> Decisions(s, m) == 0)
    && (Granted(row.status) ==> Approvals(s, m) == 1)
    && (row.status == Denied ==> Decisions(s, m) == 1 && Approvals(s, m) == 0)
    && (row.approvedBy.Some? <==> Approvals(s, m) == 1)
    && (row.contract.Some? ==> Approvals(s, m) == 1)
    && (row.status == Active ==> row.contract.Some?)
    && InOrder(s.log, m, REQUESTED)
    && (Approvals(s, m) == 1 ==> InOrder(s.log, m, APPROVED))
    && (row.status == Activating || row.status == Active || row.contract.Some? ==> InOrder(s.log, m, STARTED))
    && Calls(s, m) + (if row.status == Activating then 1 else 0) <= Starts(s, m)
  }

  /** Nothing is recorded of a market before it is registered. */
  ghost predicate Untouched(s: State, m: MarketId) {
    Decisions(s, m) == 0 && Approvals(s, m) == 0 && Calls(s, m) == 0
  }

  ghost predicate Ok(s: State) {
    && (forall m: MarketId :: m < |s.markets| ==> MarketOk(s, m))
    && (forall m: MarketId :: m >= |s.markets| ==> Untouched(s, m))
  }

  /** A log entry disturbs no market. */
  lemma LoggedKeeps(s: State, m: MarketId, kind: EventType, n: MarketId)
    requires n < |s.markets| && MarketOk(s, n)
    ensures MarketOk(Logged(s, m, kind), n)
    ensures Starts(Logged(s, m, kind), n) == Starts(s, n) + StartOf(n)(Entry(m, kind))
  {
    var e := Entry(m, kind);
    LogGrows(s.log, e, n, REQUESTED);
    LogGrows(s.log, e, n, APPROVED);
    LogGrows(s.log, e, n, STARTED);
    SumAppend(s.log, e, StartOf(n));
  }

  lemma LoggedKeepsOk(s: State, m: MarketId, kind: EventType)
    requires Ok(s)
    ensures Ok(Logged(s, m, kind))
  {
    forall n: MarketId | n < |s.markets| ensures MarketOk(Logged(s, m, kind), n) {
      LoggedKeeps(s, m, kind, n);
    }
    UntouchedStays(s, Logged(s, m, kind));
  }

  lemma UntouchedStays(s: State, s': State)
    requires Ok(s) && s'.decisions == s.decisions && s'.deployments == s.deployments && |s.markets| <= |s'.markets|
    ensures forall n: MarketId :: n >= |s'.markets| ==> Untouched(s', n)
  {
    forall n: MarketId | n >= |s'.markets| ensures Untouched(s', n) {
      assert Untouched(s, n);
    }
  }

  lemma StartsNonNegative(s: State, m: MarketId)
    ensures Starts(s, m) >= 0
  {
    SumNonNegative(s.log, StartOf(m));
  }

  lemma RegisterKeepsOk(s: State)
    requires Ok(s)
    ensures Ok(Register(s, true).state)
  {
    var m := |s.markets|;
    var s1 := s.(markets := s.markets + [Market(PendingApproval, None, None)]);
    var s2 := Logged(s1, m, Registered);
    var s' := Register(s, true).state;
    assert s'.markets == s1.markets && s' == Logged(s2, m, ApprovalRequested);
    forall n: MarketId | n < |s'.markets| ensures MarketOk(s', n) {
      if n < m {
        assert MarketOk(s, n) && MarketOk(s1, n);
        LoggedKeeps(s1, m, Registered, n);
        LoggedKeeps(s2, m, ApprovalRequested, n);
      } else {
        LogGrows(s.log, Entry(m, Registered), m, []);
        LogGrows(s2.log, Entry(m, ApprovalRequested), m, [Registered]);
        assert [] + [Registered] == [Registered] && [Registered] + [ApprovalRequested] == REQUESTED;
        assert Untouched(s, m);
        StartsNonNegative(s', m);
      }
    }
    UntouchedStays(s, s');
  }

  lemma ActivateKeepsOk(s: State, m: MarketId)
    requires Ok(s)
    ensures Ok(Activate(s, m).state)
  {
    if Activate(s, m).ok {
      var s' := Activate(s, m).state;
      forall n: MarketId | n < |s.markets| ensures MarketOk(s', n) {
        assert MarketOk(s, n);
        LoggedKeeps(s, m, ActivationStarted, n);
        LogGrows(s.log, Entry(m, ActivationStarted), m, APPROVED);
        assert APPROVED + [ActivationStarted] == STARTED;
      }
      UntouchedStays(s, s');
    }
  }

  lemma ApproveKeepsOk(s: State, m: MarketId, actor: UserId)
    requires Ok(s) && m < |s.markets| && s.markets[m].status == PendingApproval
    ensures
      var decided := s.(decisions := s.decisions + [Decision(m, true)]);
      Ok(Logged(SetMarket(decided, m, s.markets[m].(status := Approved, approvedBy := Some(actor))), m, WasApproved))
  {
    var d := Decision(m, true);
    var row := s.markets[m].(status := Approved, approvedBy := Some(actor));
    var s1 := SetMarket(s.(decisions := s.decisions + [d]), m, row);
    var s' := Logged(s1, m, WasApproved);
    forall n: MarketId ensures Decisions(s', n) == Decisions(s, n) + DecidedOn(n)(d)
                       ensures Approvals(s', n) == Approvals(s, n) + ApprovalOf(n)(d)
    {
      SumAppend(s.decisions, d, DecidedOn(n));
      SumAppend(s.decisions, d, ApprovalOf(n));
    }
    forall n: MarketId | n < |s.markets| ensures MarketOk(s', n) {
      assert MarketOk(s, n);
      LoggedKeeps(s, m, WasApproved, n);
      LogGrows(s.log, Entry(m, WasApproved), m, REQUESTED);
      assert REQUESTED + [WasApproved] == APPROVED;
    }
    forall n: MarketId | n >= |s.markets| ensures Untouched(s', n) {
      assert Untouched(s, n);
    }
  }

  lemma RejectKeepsOk(s: State, m: MarketId)
    requires Ok(s) && m < |s.markets| && s.markets[m].status == PendingApproval
    ensures
      var decided := s.(decisions := s.decisions + [Decision(m, false)]);
      Ok(Logged(SetMarket(decided, m, s.markets[m].(status := Denied)), m, WasRejected))
  {
    var d := Decision(m, false);
    var s1 := SetMarket(s.(decisions := s.decisions + [d]), m, s.markets[m].(status := Denied));
    forall n: MarketId ensures Decisions(s1, n) == Decisions(s, n) + DecidedOn(n)(d)
                       ensures Approvals(s1, n) == Approvals(s, n)
    {
      SumAppend(s.decisions, d, DecidedOn(n));
      SumAppend(s.decisions, d, ApprovalOf(n));
    }
    forall n: MarketId | n < |s.markets| ensures MarketOk(s1, n) {
      assert MarketOk(s, n);
    }
    forall n: MarketId | n >= |s.markets| ensures Untouched(s1, n) {
      assert Untouched(s, n);
    }
    LoggedKeepsOk(s1, m, WasRejected);
  }

  lemma DecideKeepsOk(s: State, m: MarketId, approve: bool, actor: UserId, authorized: bool)
    requires Ok(s)
    ensures Ok(Decide(s, m, approve, actor, authorized).state)
  {
    if Decide(s, m, approve, actor, authorized).ok {
      if approve {
        ApproveKeepsOk(s, m, actor);
        var decided := s.(decisions := s.decisions + [Decision(m, true)]);
        var row := s.markets[m].(status := Approved, approvedBy := Some(actor));
        ActivateKeepsOk(Logged(SetMarket(decided, m, row), m, WasApproved), m);
      } else {
        RejectKeepsOk(s, m);
      }
    }
  }

  lemma CloseKeepsOk(s: State, m: MarketId, archive: bool, authorized: bool)
    requires Ok(s)
    ensures Ok(Close(s, m, archive, authorized).state)
  {
    if Close(s, m, archive, authorized).ok {
      var s1 := SetMarket(s, m, s.markets[m].(status := if archive then Archived else Paused));
      forall n: MarketId | n < |s.markets| ensures MarketOk(s1, n) {
        assert MarketOk(s, n);
      }
      UntouchedStays(s, s1);
      LoggedKeepsOk(s1, m, if archive then WasArchived else WasPaused);
    }
  }

  lemma DeployKeepsOk(s: State, m: MarketId, outcome: Deployment)
    requires Ok(s)
    ensures Ok(Deploy(s, m, outcome).state)
  {
    if m < |s.markets| && s.markets[m].status == Activating {
      var row := match outcome
        case Deploys(address) => s.markets[m].(status := Active, contract := Some(address))
        case DeployFails => s.markets[m].(status := Approved)
        case FailsLater(address) => s.markets[m].(status := Approved, contract := Some(address));
      var s1 := SetMarket(s.(deployments := s.deployments + [m]), m, row);
      forall n: MarketId ensures Calls(s1, n) == Calls(s, n) + CallFor(n)(m) {
        SumAppend(s.deployments, m, CallFor(n));
      }
      forall n: MarketId | n < |s.markets| ensures MarketOk(s1, n) {
        assert MarketOk(s, n);
      }
      forall n: MarketId | n >= |s.markets| ensures Untouched(s1, n) {
        assert Untouched(s, n);
      }
      LoggedKeepsOk(s1, m, WasActivated);
    }
  }

  lemma RecordKeepsOk(s: State, id: EventId, status: ProcessingStatus)
    requires Ok(s)
    ensures Ok(Record(s, id, status))
  {
    var s' := Record(s, id, status);
    forall n: MarketId | n < |s.markets| ensures MarketOk(s', n) {
      assert MarketOk(s, n);
    }
    UntouchedStays(s, s');
  }

  lemma ReceiveKeepsOk(s: State, d: Delivery)
    requires Ok(s)
    ensures Ok(Receive(s, d))
  {
    var id := d.eventId;
    RecordKeepsOk(s, id, Skipped);
    RecordKeepsOk(s, id, Failure);
    if d.channel == Webhook && d.payload.Some? {
      HandleKeepsOk(s, d);
      RecordKeepsOk(HandleDecision(s, d).state, id, if HandleDecision(s, d).ok then Success else Failure);
    } else if d.channel == Poll && d.payload.Some? {
      var logged := LogDecision(s, d.payload.value.market, d.kind == MarketApproved, d.actor);
      if logged.Some? {
        LoggedKeepsOk(s, d.payload.value.market.value, if d.kind == MarketApproved then WasApproved else WasRejected);
        RecordKeepsOk(logged.value, id, Success);
      }
    }
  }

  lemma HandleKeepsOk(s: State, d: Delivery)
    requires Ok(s) && d.payload.Some?
    ensures Ok(HandleDecision(s, d).state)
  {
    var p := d.payload.value;
    if p.market.Some? && d.actor.Some? {
      var approve := p.verdict == SaysApproved;
      var kind := if approve then WasApproved else WasRejected;
      LoggedKeepsOk(s, p.market.value, kind);
      DecideKeepsOk(Logged(s, p.market.value, kind), p.market.value, approve, d.actor.value, d.authorized);
    }
  }

  /** When a status may be written over another: updateMarketStatus itself looks at nothing. */
  ghost predicate StatusFits(s: State, m: MarketId, status: MarketStatus)
    requires m < |s.markets|
  {
    match status
    case Draft => false
    case PendingApproval => Decisions(s, m) == 0
    case Approved => Approvals(s, m) == 1
    case Activating => Approvals(s, m) == 1 && InOrder(s.log, m, STARTED) && Calls(s, m) < Starts(s, m)
    case Active => s.markets[m].contract.Some?
    case Denied => Decisions(s, m) == 1 && Approvals(s, m) == 0
    case Paused => true
    case Archived => true
  }

  /** The unguarded status write keeps the lifecycle exactly when the market's history fits the status. */
  lemma StatusKeepsOkIff(s: State, m: MarketId, status: MarketStatus)
    requires Ok(s) && m < |s.markets|
    ensures Ok(SetMarket(s, m, s.markets[m].(status := status))) <==> StatusFits(s, m, status)
  {
    var s' := SetMarket(s, m, s.markets[m].(status := status));
    assert MarketOk(s, m);
    assert Ok(s') ==> MarketOk(s', m);
    if StatusFits(s, m, status) {
      forall n: MarketId | n < |s.markets| ensures MarketOk(s', n) {
        assert MarketOk(s, n);
      }
      UntouchedStays(s, s');
    }
  }

  lemma {:induction false} InOrderMember(log: seq<Entry>, m: MarketId, kinds: seq<EventType>, kind: EventType)
    requires InOrder(log, m, kinds) && kind in kinds
    ensures Entry(m, kind) in log
    decreases |log|
  {
    var front, k := log[..|log| - 1], |kinds| - 1;
    if InOrder(front, m, kinds) {
      InOrderMember(front, m, kinds, kind);
    } else if kinds[k] != kind {
      assert kinds == kinds[..k] + [kinds[k]];
      InOrderMember(front, m, kinds[..k], kind);
    }
  }

  /** What the log of a market says once the market stands. */
  lemma HistoryOf(s: State, m: MarketId, kind: EventType)
    requires Ok(s) && m < |s.markets|
    ensures kind in REQUESTED ==> Entry(m, kind) in s.log
    ensures s.markets[m].approvedBy.Some? && kind in APPROVED ==> Entry(m, kind) in s.log
    ensures (s.markets[m].status == Active || s.markets[m].contract.Some?) && kind in STARTED
            ==> Entry(m, kind) in s.log
  {
    assert MarketOk(s, m);
    if kind in REQUESTED {
      InOrderMember(s.log, m, REQUESTED, kind);
    }
    if s.markets[m].approvedBy.Some? && kind in APPROVED {
      InOrderMember(s.log, m, APPROVED, kind);
    }
    if (s.markets[m].status == Active || s.markets[m].contract.Some?) && kind in STARTED {
      InOrderMember(s.log, m, STARTED, kind);
    }
  }

  /** What follows from the invariant for one market. */
  lemma MarketFacts(s: State, m: MarketId)
    requires Ok(s) && m < |s.markets|
    ensures Decisions(s, m) <= 1 && Calls(s, m) <= Starts(s, m)
    ensures s.markets[m].status == PendingApproval ==> Decisions(s, m) == 0
    ensures s.markets[m].status == Active ==>
              s.markets[m].approvedBy.Some? && s.markets[m].contract.Some? && InOrder(s.log, m, STARTED)
    ensures Decision(m, false) in s.decisions ==>
              s.markets[m].contract.None? && s.markets[m].approvedBy.None? && !Granted(s.markets[m].status)
  {
    assert MarketOk(s, m);
    if Decision(m, false) in s.decisions {
      var k :| 0 <= k < |s.decisions| && s.decisions[k] == Decision(m, false);
      RejectionCounts(s.decisions, m, k);
    }
  }

  lemma StepKeepsOk(s: State, step: Step)
    requires Ok(s)
    ensures Ok(Apply(s, step))
  {
    match step {
      case RegisterMarket(authorized) => RegisterKeepsOk(s);
      case DecideMarket(m, approve, actor, authorized) => DecideKeepsOk(s, m, approve, actor, authorized);
      case ActivateMarket(m) => ActivateKeepsOk(s, m);
      case CloseMarket(m, archive, authorized) => CloseKeepsOk(s, m, archive, authorized);
      case RunDeployment(m, outcome) => DeployKeepsOk(s, m, outcome);
      case Deliver(d) => ReceiveKeepsOk(s, d);
    }
  }

  lemma {:induction false} RunKeepsOk(s: State, steps: seq<Step>)
    requires Ok(s)
    ensures Ok(Run(s, steps))
    decreases |steps|
  {
    if steps != [] {
      StepKeepsOk(s, steps[0]);
      RunKeepsOk(Apply(s, steps[0]), steps[1..]);
    }
  }

  /**
   * In every state that any interleaving of handlers reaches: at most one decision was ever applied to
   * a market; an active market has an approver, a contract, and its four milestones in order in the
   * log; a rejected market has no contract; deployment calls never outnumber activation starts.
   */
  lemma LifecycleSafety(steps: seq<Step>, m: MarketId)
    requires m < |Run(START, steps).markets|
    ensures
      var s := Run(START, steps);
      && Decisions(s, m) <= 1
      && (s.markets[m].status == Active ==>
            s.markets[m].approvedBy.Some? && s.markets[m].contract.Some? && InOrder(s.log, m, STARTED))
      && (Decision(m, false) in s.decisions ==> s.markets[m].contract.None? && s.markets[m].status != Active)
      && Calls(s, m) <= Starts(s, m)
  {
    RunKeepsOk(START, steps);
    MarketFacts(Run(START, steps), m);
  }

  lemma {:induction false} RejectionCounts(decisions: seq<Decision>, m: MarketId, k: nat)
    requires k < |decisions| && decisions[k] == Decision(m, false)
    ensures Sum(decisions, DecidedOn(m)) >= Sum(decisions, ApprovalOf(m)) + 1
  {
    var n := |decisions| - 1;
    if k < n {
      RejectionCounts(decisions[..n], m, k);
    } else {
      SumMonotone(decisions[..n], ApprovalOf(m), DecidedOn(m));
    }
  }

  // ---- Closing and retrying ----

  predicate Closed(status: MarketStatus) {
    status == Denied || status == Paused || status == Archived
  }

  lemma DecideKeepsClosed(s: State, m: MarketId, approve: bool, actor: UserId, authorized: bool, n: MarketId)
    requires n < |s.markets| && Closed(s.markets[n].status)
    ensures var s' := Decide(s, m, approve, actor, authorized).state;
            |s'.markets| == |s.markets| && s'.markets[n] == s.markets[n]
  {
  }

  lemma StepKeepsClosed(s: State, step: Step, m: MarketId)
    requires m < |s.markets| && Closed(s.markets[m].status)
    ensures var s' := Apply(s, step);
            && m < |s'.markets| && Closed(s'.markets[m].status)
            && s'.markets[m].contract == s.markets[m].contract
  {
    if step.Deliver? && step.delivery.payload.Some? && step.delivery.actor.Some? {
      var d := step.delivery;
      var approve := d.payload.value.verdict == SaysApproved;
      var logged := LogDecision(s, d.payload.value.market, approve, d.actor);
      if logged.Some? {
        DecideKeepsClosed(logged.value, d.payload.value.market.value, approve, d.actor.value, d.authorized, m);
      }
    }
  }

  /** No handler brings a rejected, paused or archived market back. */
  lemma {:induction false} ClosedStaysClosed(s: State, steps: seq<Step>, m: MarketId)
    requires m < |s.markets| && Closed(s.markets[m].status)
    ensures m < |Run(s, steps).markets| && Closed(Run(s, steps).markets[m].status)
    ensures Run(s, steps).markets[m].contract == s.markets[m].contract
    decreases |steps|
  {
    if steps != [] {
      StepKeepsClosed(s, steps[0], m);
      ClosedStaysClosed(Apply(s, steps[0]), steps[1..], m);
    }
  }

  /**
   * After a failed deployment no number of retries of the job does anything, whatever they would meet:
   * the status they need was taken away. The market is left approved, and deployed or not.
   */
  lemma {:induction false} RetriesAreIdle(s: State, m: MarketId, outcome: Deployment, retries: seq<Step>)
    requires m < |s.markets| && s.markets[m].status == Activating && !outcome.Deploys?
    requires forall i :: 0 <= i < |retries| ==> retries[i].RunDeployment? && retries[i].market == m
    ensures Run(Deploy(s, m, outcome).state, retries) == Deploy(s, m, outcome).state
    ensures Deploy(s, m, outcome).state.markets[m].status == Approved
    decreases |retries|
  {
    if retries != [] {
      RetriesAreIdle(s, m, outcome, retries[1..]);
    }
  }
}
