/** The market lifecycle, the event log, and the two channels through which decisions are delivered. */
module Markets {
  import opened Sums

  type UserId = nat
  type MarketId = nat
  type EventId = nat

  datatype MarketStatus = Draft | PendingApproval | Approved | Denied | Activating | Active | Paused | Archived

  datatype Market = Market(status: MarketStatus, approvedBy: Option<UserId>, contract: Option<nat>)

  datatype EventType =
    | Registered | ApprovalRequested | WasApproved | WasRejected
    | ActivationStarted | WasActivated | WasPaused | WasArchived

  datatype Entry = Entry(market: MarketId, kind: EventType)

  datatype ProcessingStatus = Success | Failure | Skipped

  /** decisions: the approvals and rejections applied. deployments: the calls made to deploy a token. */
  datatype Decision = Decision(market: MarketId, approve: bool)

  datatype State = State(
    markets: seq<Market>, log: seq<Entry>, processed: map<EventId, ProcessingStatus>,
    decisions: seq<Decision>, deployments: seq<MarketId>)

  datatype Result = Result(state: State, ok: bool)

  // ---- Handlers ----

  function SetMarket(s: State, m: MarketId, row: Market): State
    requires m < |s.markets|
  {
    s.(markets := s.markets[m := row])
  }

  function Logged(s: State, m: MarketId, kind: EventType): State {
    s.(log := s.log + [Entry(m, kind)])
  }

  /** registerMarket and requestApproval. */
  function Register(s: State, authorized: bool): Result {
    if !authorized then Result(s, false)
    else
      var m := |s.markets|;
      var created := Logged(s.(markets := s.markets + [Market(Draft, None, None)]), m, Registered);
      var pending := SetMarket(created, m, created.markets[m].(status := PendingApproval));
      Result(Logged(pending, m, ApprovalRequested), true)
  }

  /** processApprovalDecision: an approval goes on to activate the market. */
  function Decide(s: State, m: MarketId, approve: bool, actor: UserId, authorized: bool): Result {
    if m >= |s.markets| || s.markets[m].status != PendingApproval || !authorized then Result(s, false)
    else
      var decided := s.(decisions := s.decisions + [Decision(m, approve)]);
      if approve then
        var approved := SetMarket(decided, m, s.markets[m].(status := Approved, approvedBy := Some(actor)));
        Activate(Logged(approved, m, WasApproved), m)
      else
        Result(Logged(SetMarket(decided, m, s.markets[m].(status := Denied)), m, WasRejected), true)
  }

  function Activate(s: State, m: MarketId): Result {
    if m >= |s.markets| || s.markets[m].status != Approved then Result(s, false)
    else Result(Logged(SetMarket(s, m, s.markets[m].(status := Activating)), m, ActivationStarted), true)
  }

  /** pauseMarket and archiveMarket look at no status. */
  function Close(s: State, m: MarketId, archive: bool, authorized: bool): Result {
    if !authorized || m >= |s.markets| then Result(s, false)
    else
      var row := s.markets[m].(status := if archive then Archived else Paused);
      Result(Logged(SetMarket(s, m, row), m, if archive then WasArchived else WasPaused), true)
  }

  /** The deployment call succeeds or fails, or what follows the switch to active fails. */
  datatype Deployment = Deploys(address: nat) | DeployFails | FailsLater(address: nat)

  /**
   * handleTokenDeployment. The catch block reverts the status; the activation_failed entry it would
   * log is not among the event types the table accepts.
   */
  function Deploy(s: State, m: MarketId, outcome: Deployment): Result {
    if m >= |s.markets| then Result(s, false)
    else if s.markets[m].status != Activating then Result(s, true)
    else
      var called := s.(deployments := s.deployments + [m]);
      match outcome
      case Deploys(address) =>
        var row := s.markets[m].(status := Active, contract := Some(address));
        Result(Logged(SetMarket(called, m, row), m, WasActivated), true)
      case DeployFails =>
        Result(SetMarket(called, m, s.markets[m].(status := Approved)), false)
      case FailsLater(address) =>
        Result(SetMarket(called, m, s.markets[m].(status := Approved, contract := Some(address))), false)
  }

  // ---- Delivery ----

  datatype Channel = Webhook | Poll
  datatype EventKind = MarketApproved | MarketRejected | OtherKind
  datatype Verdict = SaysApproved | SaysRejected | SaysOther | SaysNothing

  datatype Payload = Payload(market: Option<MarketId>, verdict: Verdict)

  /** actor is missing when the context names none: the default 'system' is not an id the log accepts. */
  datatype Delivery = Delivery(
    channel: Channel, eventId: EventId, kind: EventKind, payload: Option<Payload>,
    actor: Option<UserId>, authorized: bool)

  function Record(s: State, id: EventId, status: ProcessingStatus): State {
    s.(processed := s.processed[id := status])
  }

  /** handleEntityPermissionDecision: only logs. None when the log refuses the row. */
  function LogDecision(s: State, market: Option<MarketId>, approve: bool, actor: Option<UserId>): Option<State> {
    if market.None? || market.value >= |s.markets| || actor.None? then None
    else Some(Logged(s, market.value, if approve then WasApproved else WasRejected))
  }

  /** handleMarketApprovalDecision: log, then decide. The log entry stays when the decision is refused. */
  function HandleDecision(s: State, d: Delivery): Result
    requires d.payload.Some?
  {
    var p := d.payload.value;
    if p.market.None? || p.verdict == SaysNothing || p.verdict == SaysOther then Result(s, false)
    else
      var approve := p.verdict == SaysApproved;
      match LogDecision(s, p.market, approve, d.actor)
      case None => Result(s, false)
      case Some(logged) => Decide(logged, p.market.value, approve, d.actor.value, d.authorized)
  }

  /** handleEntityPermissionsWebhook: an event without a payload is turned away unrecorded. */
  function ReceiveWebhook(s: State, d: Delivery): State {
    if d.payload.None? || d.eventId in s.processed then s
    else if d.kind == OtherKind then Record(s, d.eventId, Skipped)
    else
      var r := HandleDecision(s, d);
      Record(r.state, d.eventId, if r.ok then Success else Failure)
  }

  /** processEntityPermissionEvent: goes by the event type, and never decides. */
  function ReceivePoll(s: State, d: Delivery): State {
    if d.eventId in s.processed || d.kind == OtherKind then s
    else if d.payload.None? then Record(s, d.eventId, Failure)
    else
      match LogDecision(s, d.payload.value.market, d.kind == MarketApproved, d.actor)
      case None => Record(s, d.eventId, Failure)
      case Some(logged) => Record(logged, d.eventId, Success)
  }

  function Receive(s: State, d: Delivery): State {
    if d.channel == Webhook then ReceiveWebhook(s, d) else ReceivePoll(s, d)
  }

  // ---- Runs ----

  datatype Step =
    | RegisterMarket(authorized: bool)
    | DecideMarket(market: MarketId, approve: bool, actor: UserId, authorized: bool)
    | ActivateMarket(market: MarketId)
    | CloseMarket(market: MarketId, archive: bool, authorized: bool)
    | RunDeployment(market: MarketId, outcome: Deployment)
    | Deliver(delivery: Delivery)

  function Apply(s: State, step: Step): State {
    match step
    case RegisterMarket(authorized) => Register(s, authorized).state
    case DecideMarket(m, approve, actor, authorized) => Decide(s, m, approve, actor, authorized).state
    case ActivateMarket(m) => Activate(s, m).state
    case CloseMarket(m, archive, authorized) => Close(s, m, archive, authorized).state
    case RunDeployment(m, outcome) => Deploy(s, m, outcome).state
    case Deliver(d) => Receive(s, d)
  }

  function Run(s: State, steps: seq<Step>): State
    decreases |steps|
  {
    if steps == [] then s else Run(Apply(s, steps[0]), steps[1..])
  }

  const START := State([], [], map[], [], [])
}
