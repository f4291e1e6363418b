/** Runs that show which conditions of the protocol's promises cannot be dropped. */
module ProtocolWitness {
  import opened Wrappers
  import opened PendingTable
  import opened Routing
  import opened Protocol
  import opened ProtocolSafety
  import opened ProtocolRuns
  import opened ProtocolPause
  import opened ProtocolWork
  import opened ProtocolChannel
  import Retry

  lemma {:induction false} Concat(p: Params, s: State, es: seq<Event>, more: seq<Event>)
    requires IsRun(p, s, es) && IsRun(p, Exec(p, s, es), more)
    ensures IsRun(p, s, es + more)
    ensures Exec(p, s, es + more) == Exec(p, Exec(p, s, es), more)
    decreases |es|
  {
    hide Apply;
    hide Enabled;
    if es == [] {
      assert es + more == more;
    } else {
      Concat(p, Apply(p, s, es[0]), es[1..], more);
      assert (es + more)[0] == es[0] && (es + more)[1..] == es[1..] + more;
    }
  }

  lemma OneStep(p: Params, s: State, e: Event)
    requires Enabled(s, e)
    ensures IsRun(p, s, [e]) && Exec(p, s, [e]) == Apply(p, s, e)
  {
    hide Apply;
    hide Enabled;
    var s' := Apply(p, s, e);
    assert [e][1..] == [];
    assert IsRun(p, s', []) && Exec(p, s', []) == s';
  }

  lemma Then(p: Params, s: State, es: seq<Event>, e: Event)
    requires IsRun(p, s, es) && Enabled(Exec(p, s, es), e)
    ensures IsRun(p, s, es + [e]) && Exec(p, s, es + [e]) == Apply(p, Exec(p, s, es), e)
  {
    hide Apply;
    hide Enabled;
    OneStep(p, Exec(p, s, es), e);
    Concat(p, s, es, [e]);
  }

  lemma FlavourIsKnown(f: Flavour)
    ensures ParseFlavour(FlavourName(f)) == Some(f)
  {
    assert FlavourName(High)[0] == 'h' && FlavourName(Mid)[0] == 'm' && FlavourName(Low)[0] == 'l';
  }

  const DIRECT_LOW := QueueId(Direct, Low)

  // ---------------------------------------------------------------- a request that waits

  /** At the start of its wait, the request 0 has no answer yet. */
  ghost predicate Expects(s: State, deadline: nat) {
    && s.now == 0 && 0 in s.requests && s.requests[0].phase == Waiting(0, false)
    && s.requests[0].deadlineSec == deadline && 0 in s.table.futures && s.table.futures[0].Undone?
    && s.table.pending == {0}
  }

  /** A message that waits in its queue, published by a request that waits for the answer. */
  ghost predicate Waits(s: State, q: QueueId, deadline: nat, expiry: nat) {
    && Expects(s, deadline)
    && IsReady(s.broker, 0) && s.broker.messages[0] == Message(q, 0, expiry) && q in s.broker.subscribed
  }

  /** As at the start, with `q` subscribed. */
  ghost predicate Fresh(p: Params, s: State, q: QueueId) {
    && s == Init(p).(broker := s.broker)
    && s.broker == Init(p).broker.(subscribed := s.broker.subscribed) && q in s.broker.subscribed
  }

  lemma SubscribedRun(p: Params, q: QueueId) returns (es: seq<Event>)
    ensures IsRun(p, Init(p), es) && ChannelHolds(es) && Fresh(p, Reached(p, es), q)
  {
    AllQueuesIsAll(q);
    if q.qType.Buffered? {
      OneStep(p, Init(p), OfBroker(Subscribe(q)));
      es := [OfBroker(Subscribe(q))];
    } else {
      es := [];
    }
  }

  lemma PublishSteps(p: Params, s: State, q: QueueId, deadline: nat) returns (es: seq<Event>)
    requires Fresh(p, s, q)
    ensures IsRun(p, s, es) && ChannelHolds(es)
    ensures Waits(Exec(p, s, es), q, deadline, deadline * 1000 * p.ttlUnit)
    ensures Exec(p, s, es).permits == s.permits && TallyOf(Exec(p, s, es), 0) == Tally(0, 0, 0)
    ensures Exec(p, s, es).enabled
  {
    hide AcceptMessage;
    FlavourIsKnown(q.flavour);
    var e1 := OfRouter(Begin(0, q.qType, FlavourName(q.flavour), deadline));
    var e2, e3 := OfBroker(Accept(0)), OfRouter(PublishReturns(0));
    OneStep(p, s, e1);
    AcceptRoutes(p, Apply(p, s, e1), 0);
    Then(p, s, [e1], e2);
    Then(p, s, [e1] + [e2], e3);
    es := [e1] + [e2] + [e3];
  }

  /** The request 0 is published to the queue `q`, which is subscribed, and waits. */
  lemma PublishedRun(p: Params, q: QueueId, deadline: nat) returns (es: seq<Event>)
    ensures IsRun(p, Init(p), es)
    ensures Waits(Reached(p, es), q, deadline, deadline * 1000 * p.ttlUnit)
    ensures Reached(p, es).permits == Init(p).permits && TallyOf(Reached(p, es), 0) == Tally(0, 0, 0)
    ensures ChannelHolds(es) && Reached(p, es).enabled
  {
    hide Apply;
    hide Enabled;
    hide Waits;
    hide TallyOf;
    var a := SubscribedRun(p, q);
    var b := PublishSteps(p, Reached(p, a), q, deadline);
    Concat(p, Init(p), a, b);
    NoLossIn(a, b);
    es := a + b;
  }

  // ---------------------------------------------------------------- a request that is answered

  /** The handler of the message of request 0 is sending it, on a live channel. */
  ghost predicate Underway(s: State, deadline: nat, tag: Tag) {
    && Expects(s, deadline)
    && tag in s.handlers && s.handlers[tag].cid == 0 && s.handlers[tag].stage.Sending?
    && Settleable(s.broker, tag) && s.broker.unacked[tag].cid == 0
  }

  lemma ForwardSteps(p: Params, s: State, q: QueueId, deadline: nat, expiry: nat) returns (es: seq<Event>)
    requires Waits(s, q, deadline, expiry) && expiry > 0 && s.enabled && q in s.permits && s.permits[q] > 0
    ensures IsRun(p, s, es) && Underway(Exec(p, s, es), deadline, s.broker.nextTag)
  {
    var tag := s.broker.nextTag;
    var e1, e2, e3 := OfBroker(Deliver(0)), OfWorker(TakePermit(tag)), OfWorker(Start(tag, true));
    OneStep(p, s, e1);
    Then(p, s, [e1], e2);
    Then(p, s, [e1] + [e2], e3);
    es := [e1] + [e2] + [e3];
  }

  lemma ReplySteps(p: Params, s: State, deadline: nat, tag: Tag, status: int, body: string) returns (es: seq<Event>)
    requires Underway(s, deadline, tag) && status !in {500, 502, 503, 504}
    ensures IsRun(p, s, es)
    ensures var s' := Exec(p, s, es);
      && Expects(s', deadline) && Reply(0, status, body) in s'.replies
      && 0 in s'.broker.acked
  {
    var e1, e2 := OfWorker(Respond(tag, Retry.Response(status, body))), OfWorker(PublishReply(tag));
    var e3 := OfWorker(Ack(tag));
    OneStep(p, s, e1);
    Then(p, s, [e1], e2);
    Then(p, s, [e1] + [e2], e3);
    es := [e1] + [e2] + [e3];
  }

  lemma AnswerSteps(p: Params, s: State, deadline: nat, reply: Reply) returns (es: seq<Event>)
    requires Expects(s, deadline) && reply in s.replies && reply.correlationId == 0
    ensures IsRun(p, s, es)
    ensures var s' := Exec(p, s, es);
      && 0 in s'.requests && s'.requests[0].phase == Answered(reply) && s'.table.pending == {}
      && s'.broker == s.broker
  {
    var e1, e2 := OfRouter(ReplyArrives(reply)), OfRouter(WaiterWakes(0));
    OneStep(p, s, e1);
    Then(p, s, [e1], e2);
    es := [e1] + [e2];
  }

  /** Whatever the target says, other than the statuses that are retried, and whichever of the six queues
      the request goes to: there is a run in which its requester is answered with just that, the message
      is acknowledged and the table is empty again. */
  lemma EveryAnswerIsReachable(p: Params, q: QueueId, deadline: nat, status: int, body: string) returns (es: seq<Event>)
    requires p.concurrency > 0 && p.ttlUnit > 0 && deadline > 0 && status !in {500, 502, 503, 504}
    ensures IsRun(p, Init(p), es)
    ensures var s := Reached(p, es);
      && 0 in s.requests && s.requests[0].phase == Answered(Reply(0, status, body))
      && 0 in s.broker.acked && s.table.pending == {}
  {
    hide Apply;
    hide Enabled;
    hide Waits;
    hide Underway;
    var a := PublishedRun(p, q, deadline);
    var s1 := Reached(p, a);
    AllQueuesIsAll(q);
    assert deadline * 1000 * p.ttlUnit > 0;
    var b := ForwardSteps(p, s1, q, deadline, deadline * 1000 * p.ttlUnit);
    var s2 := Exec(p, s1, b);
    var c := ReplySteps(p, s2, deadline, s1.broker.nextTag, status, body);
    var s3 := Exec(p, s2, c);
    var d := AnswerSteps(p, s3, deadline, Reply(0, status, body));
    Concat(p, Init(p), a, b);
    Concat(p, Init(p), a + b, c);
    Concat(p, Init(p), a + b + c, d);
    es := a + b + c + d;
  }

  // ---------------------------------------------------------------- the unit of the expiration

  lemma TimeoutSteps(p: Params, s: State, deadline: nat) returns (es: seq<Event>)
    requires Expects(s, deadline)
    ensures IsRun(p, s, es) && ChannelHolds(es)
    ensures var s' := Exec(p, s, es);
      && s'.broker == s.broker && s'.handlers == s.handlers && s'.permits == s.permits && s'.ledger == s.ledger
      && s'.now == deadline * 1000
      && 0 in s'.requests && s'.requests[0].phase.TimedOut?
  {
    var e1, e2 := OfWorld(Tick(deadline * 1000)), OfRouter(TimerFires(0));
    var e3, e4 := OfRouter(WaiterWakes(0)), OfRouter(DropExpired(0));
    OneStep(p, s, e1);
    Then(p, s, [e1], e2);
    Then(p, s, [e1] + [e2], e3);
    Then(p, s, [e1] + [e2] + [e3], e4);
    es := [e1] + [e2] + [e3] + [e4];
  }

  /** No reachable state lets the broker deliver the message of a request that has timed out. */
  ghost predicate DeadlineHonoured(p: Params) {
    forall es, c :: IsRun(p, Init(p), es) && TimedOutIn(Reached(p, es), c) ==>
      !BrokerEnabled(Reached(p, es), Deliver(c))
  }

  predicate TimedOutIn(s: State, c: Cid) {
    c in s.requests && s.requests[c].phase.TimedOut?
  }

  /** Main result: deliveries end with the requester's patience exactly if the broker reads the
      expiration in units of at most a millisecond. */
  lemma DeadlineHonouredExactly(p: Params)
    ensures DeadlineHonoured(p) <==> p.ttlUnit <= 1
  {
    if p.ttlUnit <= 1 {
      forall es, c | IsRun(p, Init(p), es) && TimedOutIn(Reached(p, es), c)
        ensures !BrokerEnabled(Reached(p, es), Deliver(c))
      {
        ReachedHolds(p, es);
        NoDeliveryOnceTimedOut(p, Reached(p, es), c);
      }
    } else {
      var es := PublishedRun(p, DIRECT_LOW, 1);
      var s := Reached(p, es);
      var more := TimeoutSteps(p, s, 1);
      Concat(p, Init(p), es, more);
      assert TimedOutIn(Reached(p, es + more), 0);
      assert BrokerEnabled(Reached(p, es + more), Deliver(0));
    }
  }

  lemma NoDeliveryOnceTimedOut(p: Params, s: State, c: Cid)
    requires Inv(p, s) && p.ttlUnit <= 1 && TimedOutIn(s, c)
    ensures !BrokerEnabled(s, Deliver(c))
  {
    if BrokerEnabled(s, Deliver(c)) {
      DeliveryBeforeTimeout(p, s, c);
    }
  }

  // ---------------------------------------------------------------- sends after the 504

  /** The requester has given up, and the handler of the only delivery has sent `k` times since. */
  ghost predicate SendsLate(s: State, tag: Tag, k: nat) {
    && TimedOutIn(s, 0) && tag in s.handlers && s.handlers[tag].cid == 0
    && s.handlers[tag].stage.Sending? && s.handlers[tag].stage.attempt == k
    && TallyOf(s, 0).sends == k
  }

  lemma NoLossIn(es: seq<Event>, more: seq<Event>)
    requires ChannelHolds(es) && ChannelHolds(more)
    ensures ChannelHolds(es + more)
  {
  }

  /** The message is delivered at once, but waits for its permit until the requester has given up. */
  lemma FirstLateSend(p: Params) returns (es: seq<Event>, more: seq<Event>)
    requires p.concurrency > 0 && p.ttlUnit == 1
    ensures IsRun(p, Init(p), es) && ChannelHolds(es)
    ensures TimedOutIn(Reached(p, es), 0) && 0 in Reached(p, es).broker.messages
    ensures TallyOf(Reached(p, es), 0).sends == 0
    ensures IsRun(p, Reached(p, es), more) && ChannelHolds(more)
    ensures exists tag :: SendsLate(Exec(p, Reached(p, es), more), tag, 1)
  {
    var before := PublishedRun(p, DIRECT_LOW, 1);
    var s := Reached(p, before);
    var tag, e1 := s.broker.nextTag, OfBroker(Deliver(0));
    AllQueuesIsAll(DIRECT_LOW);
    Then(p, Init(p), before, e1);
    var s1 := Apply(p, s, e1);
    DeliveredState(p, s, s1);
    hide Apply;
    hide Enabled;
    var wait := TimeoutSteps(p, s1, 1);
    Concat(p, Init(p), before + [e1], wait);
    NoLossIn(before, [e1]);
    NoLossIn(before + [e1], wait);
    es := before + [e1] + wait;
    more := LateStart(p, Reached(p, es), tag);
  }

  lemma DeliveredState(p: Params, s: State, s1: State)
    requires Waits(s, DIRECT_LOW, 1, 1000) && TallyOf(s, 0) == Tally(0, 0, 0)
    requires Enabled(s, OfBroker(Deliver(0))) && s1 == Apply(p, s, OfBroker(Deliver(0)))
    ensures Expects(s1, 1) && 0 in s1.broker.messages && s1.permits == s.permits
    ensures s.broker.nextTag in s1.handlers && s1.handlers[s.broker.nextTag] == Handler(0, DIRECT_LOW, Queued)
    ensures TallyOf(s1, 0).sends == 0
  {
  }

  lemma LateStart(p: Params, s: State, tag: Tag) returns (es: seq<Event>)
    requires TimedOutIn(s, 0) && tag in s.handlers && s.handlers[tag] == Handler(0, DIRECT_LOW, Queued)
    requires DIRECT_LOW in s.permits && s.permits[DIRECT_LOW] > 0 && TallyOf(s, 0).sends == 0
    ensures IsRun(p, s, es) && ChannelHolds(es) && SendsLate(Exec(p, s, es), tag, 1)
  {
    var e1, e2 := OfWorker(TakePermit(tag)), OfWorker(Start(tag, true));
    OneStep(p, s, e1);
    Then(p, s, [e1], e2);
    es := [e1] + [e2];
  }

  /** The attempt fails in the retryable way, and after its sleep the handler sends again. */
  lemma LateRetry(p: Params, s: State, tag: Tag, k: nat) returns (es: seq<Event>)
    requires SendsLate(s, tag, k) && k < Retry.MAX_RETRIES
    ensures IsRun(p, s, es) && ChannelHolds(es) && SendsLate(Exec(p, s, es), tag, k + 1)
  {
    var e1, e2 := OfWorker(Respond(tag, Retry.RetryableError)), OfWorld(Tick(s.handlers[tag].stage.delay));
    var e3 := OfWorker(Wake(tag));
    OneStep(p, s, e1);
    Then(p, s, [e1], e2);
    Then(p, s, [e1] + [e2], e3);
    es := [e1] + [e2] + [e3];
  }

  lemma {:induction false} LateRetries(p: Params, s: State, tag: Tag, k: nat) returns (es: seq<Event>)
    requires SendsLate(s, tag, k) && 1 <= k <= Retry.MAX_RETRIES
    ensures IsRun(p, s, es) && ChannelHolds(es) && SendsLate(Exec(p, s, es), tag, Retry.MAX_RETRIES)
    decreases Retry.MAX_RETRIES - k
  {
    hide SendsLate;
    hide Apply;
    hide Enabled;
    if k == Retry.MAX_RETRIES {
      es := [];
    } else {
      var first := LateRetry(p, s, tag, k);
      var rest := LateRetries(p, Exec(p, s, first), tag, k + 1);
      Concat(p, s, first, rest);
      NoLossIn(first, rest);
      es := first + rest;
    }
  }

  /** The bound on late sends is met: a run in which all five sends of a message come after its
      requester has got the 504. */
  lemma AllSendsLate(p: Params) returns (es: seq<Event>, more: seq<Event>)
    requires p.concurrency > 0 && p.ttlUnit == 1
    ensures IsRun(p, Init(p), es) && ChannelHolds(es) && TimedOutIn(Reached(p, es), 0)
    ensures 0 in Reached(p, es).broker.messages && TallyOf(Reached(p, es), 0).sends == 0
    ensures IsRun(p, Reached(p, es), more) && ChannelHolds(more)
    ensures TallyOf(Exec(p, Reached(p, es), more), 0).sends == 5
  {
    hide Apply;
    hide Enabled;
    var first: seq<Event>;
    es, first := FirstLateSend(p);
    var s := Reached(p, es);
    var tag :| SendsLate(Exec(p, s, first), tag, 1);
    var rest := LateRetries(p, Exec(p, s, first), tag, 1);
    Concat(p, s, first, rest);
    NoLossIn(first, rest);
    more := first + rest;
  }

  // ---------------------------------------------------------------- deliveries during a pause

  const PAUSABLE := QueueId(Buffered, Low)

  /** The pausable queue is subscribed, the flag is off, and the message has come back `k` times. */
  ghost predicate Bounces(s: State, k: nat, expiry: nat) {
    && s.now == 0 && !s.enabled
    && IsReady(s.broker, 0) && s.broker.messages[0] == Message(PAUSABLE, 0, expiry) && expiry > 0
    && PAUSABLE in s.broker.subscribed
    && PAUSABLE in s.permits && s.permits[PAUSABLE] > 0
    && TallyOf(s, 0).deliveries == k
    && 0 in s.requests && s.requests[0].deadlineSec == 1
  }

  lemma BounceOnce(p: Params, s: State, k: nat, expiry: nat) returns (es: seq<Event>)
    requires Bounces(s, k, expiry)
    ensures IsRun(p, s, es) && AllKeepFailing(es) && Bounces(Exec(p, s, es), k + 1, expiry)
  {
    var tag := s.broker.nextTag;
    var e1, e2 := OfBroker(Deliver(0)), OfWorker(TakePermit(tag));
    var e3, e4 := OfWorker(Start(tag, true)), OfWorker(Nack(tag));
    OneStep(p, s, e1);
    Then(p, s, [e1], e2);
    Then(p, s, [e1] + [e2], e3);
    Then(p, s, [e1] + [e2] + [e3], e4);
    es := [e1] + [e2] + [e3] + [e4];
  }

  lemma {:induction false} BounceOften(p: Params, k: nat) returns (es: seq<Event>)
    requires p.concurrency > 0 && p.ttlUnit > 0
    ensures IsRun(p, Init(p), es) && AllKeepFailing(es) && Bounces(Reached(p, es), k, 1000 * p.ttlUnit)
  {
    if k == 0 {
      hide AcceptMessage;
      FlavourIsKnown(Low);
      var s0 := Init(p);
      var e1, e2, e3, e4 := OfBroker(Subscribe(PAUSABLE)), OfWorld(SetFlag(false)),
        OfRouter(Begin(0, Buffered, FlavourName(Low), 1)), OfBroker(Accept(0));
      AllQueuesIsAll(PAUSABLE);
      OneStep(p, s0, e1);
      Then(p, s0, [e1], e2);
      Then(p, s0, [e1] + [e2], e3);
      AcceptRoutes(p, Exec(p, s0, [e1] + [e2] + [e3]), 0);
      Then(p, s0, [e1] + [e2] + [e3], e4);
      es := [e1] + [e2] + [e3] + [e4];
    } else {
      var before := BounceOften(p, k - 1);
      var more := BounceOnce(p, Reached(p, before), k - 1, 1000 * p.ttlUnit);
      Concat(p, Init(p), before, more);
      es := before + more;
    }
  }

  /** In every run against a failing target, messages of this queue type are delivered at most
      `ceil(D / 15)` times. */
  ghost predicate DeliveriesBounded(p: Params, t: QType) {
    forall es, c :: IsRun(p, Init(p), es) && AllKeepFailing(es) && InQueueType(Reached(p, es), c, t) ==>
      TallyOf(Reached(p, es), c).deliveries <= RoundLimit(p, Reached(p, es), c)
  }

  predicate InQueueType(s: State, c: Cid, t: QType) {
    c in s.broker.messages && s.broker.messages[c].queue.qType == t
  }

  function RoundLimit(p: Params, s: State, c: Cid): nat {
    if c in s.requests then CeilDiv(s.requests[c].deadlineSec * p.ttlUnit, 15) else 0
  }

  /** The bound on deliveries holds exactly for the direct queues: while the flag is off, a buffered
      message with a deadline of one second can bounce any number of times. */
  lemma DeliveriesBoundedExactly(p: Params, t: QType)
    requires p.concurrency > 0 && p.ttlUnit > 0
    ensures DeliveriesBounded(p, t) <==> t == Direct
  {
    if t == Direct {
      forall es, c | IsRun(p, Init(p), es) && AllKeepFailing(es) && InQueueType(Reached(p, es), c, t)
        ensures TallyOf(Reached(p, es), c).deliveries <= RoundLimit(p, Reached(p, es), c)
      {
        BoundedDeliveries(p, es, c);
      }
    } else {
      var es := BounceOften(p, CeilDiv(1 * p.ttlUnit, 15) + 1);
      assert InQueueType(Reached(p, es), 0, t);
      assert TallyOf(Reached(p, es), 0).deliveries > RoundLimit(p, Reached(p, es), 0);
    }
  }
}
