/** Redelivery changes nothing; which channel comes first does. */
module Redelivery {
  import opened Markets

  /** Whether handling the event leaves a row in the processed-events table. */
  predicate Recorded(d: Delivery) {
    if d.channel == Webhook then d.payload.Some? else d.kind != OtherKind
  }

  /** Keep the first recorded delivery of each event, and everything that is not a delivery. */
  function FirstDeliveries(steps: seq<Step>, seen: set<EventId>): seq<Step>
    decreases |steps|
  {
    if steps == [] then []
    else if !steps[0].Deliver? then [steps[0]] + FirstDeliveries(steps[1..], seen)
    else
      var d := steps[0].delivery;
      if !Recorded(d) || d.eventId in seen then FirstDeliveries(steps[1..], seen)
      else [steps[0]] + FirstDeliveries(steps[1..], seen + {d.eventId})
  }

  lemma ReceiveRecords(s: State, d: Delivery)
    ensures !Recorded(d) || d.eventId in s.processed ==> Receive(s, d) == s
    ensures Recorded(d) ==> Receive(s, d).processed.Keys == s.processed.Keys + {d.eventId}
  {
  }

  lemma OthersRecordNothing(s: State, step: Step)
    requires !step.Deliver?
    ensures Apply(s, step).processed == s.processed
  {
  }

  /**
   * Idempotent delivery: any run, with webhook and poll deliveries among other handlers in any order,
   * ends in the state of the run that keeps only the first recorded delivery of each event, whether
   * that one succeeded, failed or was skipped.
   */
  lemma {:induction false} RedeliveryIsIdle(s: State, steps: seq<Step>)
    ensures Run(s, steps) == Run(s, FirstDeliveries(steps, s.processed.Keys))
    decreases |steps|
  {
    if steps != [] {
      var s' := Apply(s, steps[0]);
      RedeliveryIsIdle(s', steps[1..]);
      if steps[0].Deliver? {
        ReceiveRecords(s, steps[0].delivery);
      } else {
        OthersRecordNothing(s, steps[0]);
      }
      var rest := FirstDeliveries(steps[1..], s'.processed.Keys);
      if FirstDeliveries(steps, s.processed.Keys) != rest {
        assert ([steps[0]] + rest)[1..] == rest;
      }
    }
  }

  /** When a webhook delivery decides: every condition it needs, and no other. */
  lemma WebhookDecidesIff(s: State, d: Delivery)
    requires d.channel == Webhook
    ensures Receive(s, d).markets != s.markets <==> Decisive(s, d)
    ensures Decisive(s, d) ==>
      && Receive(s, d).decisions
           == s.decisions + [Decision(d.payload.value.market.value, d.payload.value.verdict == SaysApproved)]
      && Receive(s, d).markets[d.payload.value.market.value].status
           == (if d.payload.value.verdict == SaysApproved then Activating else Denied)
  {
    if Decisive(s, d) {
      var m := d.payload.value.market.value;
      assert Receive(s, d).markets[m].status != s.markets[m].status;
    }
  }

  predicate Decisive(s: State, d: Delivery) {
    && d.eventId !in s.processed && d.kind != OtherKind && d.payload.Some? && d.payload.value.market.Some?
    && (d.payload.value.verdict == SaysApproved || d.payload.value.verdict == SaysRejected)
    && d.payload.value.market.value < |s.markets|
    && s.markets[d.payload.value.market.value].status == PendingApproval
    && d.actor.Some? && d.authorized
  }

  /** Polling alone never touches a market. */
  lemma {:induction false} PollsNeverDecide(s: State, steps: seq<Step>)
    requires forall i :: 0 <= i < |steps| ==> steps[i].Deliver? && steps[i].delivery.channel == Poll
    ensures Run(s, steps).markets == s.markets && Run(s, steps).decisions == s.decisions
    decreases |steps|
  {
    if steps != [] {
      PollsNeverDecide(Apply(s, steps[0]), steps[1..]);
    }
  }

  /**
   * One event arriving through both channels: the order leaves the same markets exactly when the
   * webhook delivery would not have decided anything. A decisive event that is polled first is lost.
   */
  lemma ChannelOrderMattersIff(s: State, webhook: Delivery, poll: Delivery)
    requires webhook.channel == Webhook && poll.channel == Poll && webhook.eventId == poll.eventId
    requires Recorded(poll)
    ensures Run(s, [Deliver(poll), Deliver(webhook)]).markets == s.markets
    ensures Run(s, [Deliver(poll), Deliver(webhook)]).markets == Run(s, [Deliver(webhook), Deliver(poll)]).markets
       <==> !Decisive(s, webhook)
  {
    TwoDeliveries(s, poll, webhook);
    TwoDeliveries(s, webhook, poll);
    ReceiveRecords(s, poll);
    ReceiveRecords(Receive(s, poll), webhook);
    WebhookDecidesIff(s, webhook);
    assert Receive(s, poll).markets == s.markets;
    assert Receive(Receive(s, webhook), poll).markets == Receive(s, webhook).markets;
  }

  lemma TwoDeliveries(s: State, first: Delivery, second: Delivery)
    ensures Run(s, [Deliver(first), Deliver(second)]) == Receive(Receive(s, first), second)
  {
    var steps := [Deliver(first), Deliver(second)];
    assert steps[1..] == [Deliver(second)];
    assert [Deliver(second)][1..] == [];
    assert Run(Receive(s, first), [Deliver(second)]) == Run(Receive(Receive(s, first), second), []);
  }
}
