/** The RPC protocol of router, broker and consumer as a step system. An `await` of the source is a
    point between two events, except that an ack or nack and the handler's way out of its semaphore
    are one event. A run is any interleaving of events that are enabled in turn. */
module Protocol {
  import opened Wrappers
  import opened PendingTable
  import opened Routing
  import Retry

  type Tag = nat

  /** `ttlUnit` is what one unit of the message property `expiration` is worth to the broker, in
      milliseconds; the router's variable name says it takes it to be 1. */
  datatype Params = Params(concurrency: nat, ttlUnit: nat, ns: string, svc: string)

  // ---------------------------------------------------------------- state

  /** Where the coroutine `proxy` of one request stands. `Waiting` is inside `asyncio.wait_for`. */
  datatype Phase =
    | Publishing
    | Waiting(since: nat, timerFired: bool)
    | Cancelling
    | Answered(reply: Reply)
    | TimedOut
    | PublishFailed

  datatype Request = Request(qType: QType, flavour: string, deadlineSec: nat, phase: Phase)

  datatype Message = Message(queue: QueueId, routedAt: nat, expiry: nat)

  /** A place in a queue, and a delivery that awaits its acknowledgement on a channel incarnation. */
  datatype Slot = Slot(queue: QueueId, cid: Cid)
  datatype Delivery = Delivery(cid: Cid, epoch: nat)

  datatype Broker = Broker(
    accepted: set<Cid>, messages: map<Cid, Message>,
    ready: multiset<Slot>, unacked: map<Tag, Delivery>, acked: set<Cid>, expired: set<Cid>,
    epoch: nat, nextTag: Tag, subscribed: set<QueueId>)

  /** Where the handler of one delivery stands in the consumer. */
  datatype Stage =
    | Queued                                             // waits for a permit
    | Admitted                                           // holds a permit
    | Paused                                             // saw the flag off, will nack
    | Sending(attempt: nat, delay: nat)
    | Sleeping(attempt: nat, delay: nat, until: nat)
    | Failed                                             // forwarding raised, will nack
    | Replying(reply: Reply)
    | Replied                                            // reply published, will ack

  datatype Handler = Handler(cid: Cid, queue: QueueId, stage: Stage)

  /** History that no guard reads: where each message is, all replies ever published, and how often
      each message was delivered, turned away by the pause flag, and sent to the target. */
  datatype Place = InQueue(queue: QueueId) | HeldBy(tag: Tag) | Acked | Expired
  datatype Tally = Tally(deliveries: nat, pauses: nat, sends: nat)
  datatype Ledger = Ledger(place: map<Cid, Place>, published: set<Reply>, tally: map<Cid, Tally>)

  datatype State = State(
    now: nat, enabled: bool,
    requests: map<Cid, Request>, table: Table,
    broker: Broker,
    handlers: map<Tag, Handler>, permits: map<QueueId, nat>,
    replies: multiset<Reply>,
    ledger: Ledger)

  function Init(p: Params): State {
    State(0, true, map[], Table(map[], {}),
          Broker({}, map[], multiset{}, map[], {}, {}, 0, 0, set q | q in AllQueues() && q.qType.Direct?),
          map[], map q | q in AllQueues() :: p.concurrency,
          multiset{},
          Ledger(map[], {}, map[]))
  }

  // ---------------------------------------------------------------- events

  /** The router: `proxy`, `wait_for` inside it, and `_on_reply`. */
  datatype RouterEvent =
    | Begin(cid: Cid, qType: QType, flavour: string, deadlineSec: nat)
    | PublishReturns(cid: Cid)
    | PublishRaises(cid: Cid)
    | TimerFires(cid: Cid)
    | WaiterWakes(cid: Cid)
    | DropExpired(cid: Cid)
    | ReplyArrives(reply: Reply)

  datatype BrokerEvent =
    | Accept(cid: Cid)
    | Expire(cid: Cid)
    | Deliver(cid: Cid)
    | ChannelLoss
    | RequeueOrphan(tag: Tag)
    | Subscribe(queue: QueueId)
    | Unsubscribe(queue: QueueId)

  /** The consumer: one handler per delivery. */
  datatype WorkerEvent =
    | TakePermit(tag: Tag)
    | Start(tag: Tag, wellFormed: bool)
    | Respond(tag: Tag, attempt: Retry.Attempt)
    | Wake(tag: Tag)
    | PublishReply(tag: Tag)
    | PublishReplyFails(tag: Tag, sent: bool)
    | Ack(tag: Tag)
    | Nack(tag: Tag)

  datatype WorldEvent =
    | SetFlag(on: bool)
    | Tick(elapsed: nat)
    | ReplyLost(reply: Reply)

  datatype Event =
    | OfRouter(router: RouterEvent)
    | OfBroker(broker: BrokerEvent)
    | OfWorker(worker: WorkerEvent)
    | OfWorld(world: WorldEvent)

  function DeadlineMs(r: Request): nat {
    r.deadlineSec * 1000
  }

  predicate RouterEnabled(s: State, e: RouterEvent) {
    match e
    case Begin(cid, _, _, _) => cid !in s.requests
    case PublishReturns(cid) =>
      cid in s.requests && s.requests[cid].phase.Publishing? && cid in s.broker.accepted
    case PublishRaises(cid) => cid in s.requests && s.requests[cid].phase.Publishing?
    case TimerFires(cid) =>
      cid in s.requests && s.requests[cid].phase.Waiting? && !s.requests[cid].phase.timerFired
      && s.now >= s.requests[cid].phase.since + DeadlineMs(s.requests[cid])
    case WaiterWakes(cid) =>
      cid in s.requests && cid in s.table.futures && s.requests[cid].phase.Waiting?
      && (s.requests[cid].phase.timerFired || !s.table.futures[cid].Undone?)
    case DropExpired(cid) => cid in s.requests && s.requests[cid].phase.Cancelling?
    case ReplyArrives(reply) => reply in s.replies
  }

  /** The message waits in its queue. */
  predicate IsReady(b: Broker, cid: Cid) {
    cid in b.messages && Slot(b.messages[cid].queue, cid) in b.ready
  }

  predicate BrokerEnabled(s: State, e: BrokerEvent) {
    match e
    case Accept(cid) =>
      cid in s.requests && cid !in s.broker.accepted
      && (s.requests[cid].phase.Publishing? || s.requests[cid].phase.PublishFailed?)
    case Expire(cid) => IsReady(s.broker, cid) && s.now >= s.broker.messages[cid].expiry
    case Deliver(cid) =>
      IsReady(s.broker, cid) && s.now < s.broker.messages[cid].expiry
      && s.broker.messages[cid].queue in s.broker.subscribed
    case ChannelLoss => true
    case RequeueOrphan(tag) =>
      Held(s.broker, tag) && s.broker.unacked[tag].epoch < s.broker.epoch
    case Subscribe(q) => q.qType.Buffered? && q !in s.broker.subscribed
    case Unsubscribe(q) => q.qType.Buffered? && q in s.broker.subscribed
  }

  predicate Held(b: Broker, tag: Tag) {
    tag in b.unacked && b.unacked[tag].cid in b.messages
  }

  /** An acknowledgement counts only on the channel incarnation that made the delivery. */
  predicate Settleable(b: Broker, tag: Tag) {
    Held(b, tag) && b.unacked[tag].epoch == b.epoch
  }

  predicate WorkerEnabled(s: State, e: WorkerEvent) {
    e.tag in s.handlers &&
    var h := s.handlers[e.tag];
    match e
    case TakePermit(_) => h.stage.Queued? && h.queue in s.permits && s.permits[h.queue] > 0
    case Start(_, _) => h.stage.Admitted?
    case Respond(_, _) => h.stage.Sending?
    case Wake(_) => h.stage.Sleeping? && s.now >= h.stage.until
    case PublishReply(_) => h.stage.Replying?
    case PublishReplyFails(_, _) => h.stage.Replying?
    case Ack(_) => h.stage.Replied?
    case Nack(_) => h.stage.Paused? || h.stage.Failed?
  }

  predicate WorldEnabled(s: State, e: WorldEvent) {
    e.ReplyLost? ==> e.reply in s.replies
  }

  predicate Enabled(s: State, e: Event) {
    match e
    case OfRouter(r) => RouterEnabled(s, r)
    case OfBroker(b) => BrokerEnabled(s, b)
    case OfWorker(w) => WorkerEnabled(s, w)
    case OfWorld(x) => WorldEnabled(s, x)
  }

  // ---------------------------------------------------------------- effects

  function SetPhase(s: State, cid: Cid, phase: Phase): State
    requires cid in s.requests
  {
    s.(requests := s.requests[cid := s.requests[cid].(phase := phase)])
  }

  function SetStage(s: State, tag: Tag, stage: Stage): State
    requires tag in s.handlers
  {
    s.(handlers := s.handlers[tag := s.handlers[tag].(stage := stage)])
  }

  function Put(s: State, cid: Cid, place: Place): State {
    s.(ledger := s.ledger.(place := s.ledger.place[cid := place]))
  }

  function TallyOf(s: State, cid: Cid): Tally {
    if cid in s.ledger.tally then s.ledger.tally[cid] else Tally(0, 0, 0)
  }

  function Count(s: State, cid: Cid, tally: Tally): State {
    s.(ledger := s.ledger.(tally := s.ledger.tally[cid := tally]))
  }

  /** The handler ends and its permit goes back to its queue's semaphore. */
  function Finish(s: State, tag: Tag): State
    requires tag in s.handlers
  {
    var q := s.handlers[tag].queue;
    s.(handlers := s.handlers - {tag},
       permits := if q in s.permits then s.permits[q := s.permits[q] + 1] else s.permits)
  }

  function SlotsIn(queues: set<QueueId>, cid: Cid): multiset<Slot> {
    multiset(set k | k in queues :: Slot(k, cid))
  }

  /** The message enters these places of its queue. */
  function Enqueue(s: State, cid: Cid, m: Message, slots: multiset<Slot>): State {
    var b := s.broker;
    Count(Put(s.(broker := b.(accepted := b.accepted + {cid}, messages := b.messages[cid := m],
                              ready := b.ready + slots)),
              cid, InQueue(m.queue)), cid, Tally(0, 0, 0))
  }

  /** The broker takes the message and puts it wherever the headers exchange routes it. */
  function AcceptMessage(p: Params, s: State, cid: Cid): State
    requires cid in s.requests
  {
    var r := s.requests[cid];
    var queues := Route(MessageHeaders(r.qType, r.flavour, p.ns, p.svc));
    if queues == {} then s.(broker := s.broker.(accepted := s.broker.accepted + {cid}))
    else
      var q := QueueId(r.qType, ParseFlavour(r.flavour).GetOr(High)); // the one queue, by ExactRouting
      Enqueue(s, cid, Message(q, s.now, s.now + DeadlineMs(r) * p.ttlUnit), SlotsIn(queues, cid))
  }

  /** A held message returns to its queue with its original expiry. */
  function Requeue(s: State, tag: Tag): State
    requires Held(s.broker, tag)
  {
    var cid := s.broker.unacked[tag].cid;
    var q := s.broker.messages[cid].queue;
    Put(s.(broker := s.broker.(unacked := s.broker.unacked - {tag}, ready := s.broker.ready + multiset{Slot(q, cid)})),
        cid, InQueue(q))
  }

  function Acknowledge(s: State, tag: Tag): State
    requires Held(s.broker, tag)
  {
    var cid := s.broker.unacked[tag].cid;
    Put(s.(broker := s.broker.(unacked := s.broker.unacked - {tag}, acked := s.broker.acked + {cid})), cid, Acked)
  }

  function ExpireMessage(s: State, cid: Cid): State
    requires cid in s.broker.messages
  {
    var slot := Slot(s.broker.messages[cid].queue, cid);
    Put(s.(broker := s.broker.(ready := s.broker.ready - multiset{slot}, expired := s.broker.expired + {cid})),
        cid, Expired)
  }

  function DeliverMessage(s: State, cid: Cid): State
    requires cid in s.broker.messages
  {
    var b, q := s.broker, s.broker.messages[cid].queue;
    var t := TallyOf(s, cid);
    Count(Put(s.(broker := b.(ready := b.ready - multiset{Slot(q, cid)},
                              unacked := b.unacked[b.nextTag := Delivery(cid, b.epoch)],
                              nextTag := b.nextTag + 1),
                 handlers := s.handlers[b.nextTag := Handler(cid, q, Queued)]),
              cid, HeldBy(b.nextTag)),
          cid, t.(deliveries := t.deliveries + 1))
  }

  /** The flag is read right before the first send, with no `await` between the two. */
  function StartForward(s: State, tag: Tag, wellFormed: bool): State
    requires tag in s.handlers
  {
    var h := s.handlers[tag];
    var t := TallyOf(s, h.cid);
    if h.queue.qType.Buffered? && !s.enabled then
      Count(SetStage(s, tag, Paused), h.cid, t.(pauses := t.pauses + 1))
    else if !wellFormed then
      SetStage(s, tag, Failed)
    else
      Count(SetStage(s, tag, Sending(1, Retry.FIRST_DELAY)), h.cid, t.(sends := t.sends + 1))
  }

  function AfterAttempt(s: State, tag: Tag, a: Retry.Attempt): State
    requires tag in s.handlers && s.handlers[tag].stage.Sending?
  {
    var g := s.handlers[tag].stage;
    match Retry.Decide(Retry.MAX_RETRIES, g.attempt, a)
    case Return =>
      assert a.Response?;
      SetStage(s, tag, Replying(Reply(s.handlers[tag].cid, a.status, a.body)))
    case Raise => SetStage(s, tag, Failed)
    case SleepAndRetry => SetStage(s, tag, Sleeping(g.attempt, g.delay, s.now + g.delay))
  }

  function SendAgain(s: State, tag: Tag): State
    requires tag in s.handlers && s.handlers[tag].stage.Sleeping?
  {
    var h := s.handlers[tag];
    var t := TallyOf(s, h.cid);
    Count(SetStage(s, tag, Sending(h.stage.attempt + 1, h.stage.delay * Retry.FACTOR)),
          h.cid, t.(sends := t.sends + 1))
  }

  function Publish(s: State, reply: Reply): State {
    s.(replies := s.replies + multiset{reply}, ledger := s.ledger.(published := s.ledger.published + {reply}))
  }

  function ApplyRouter(s: State, e: RouterEvent): State
    requires RouterEnabled(s, e)
  {
    match e
    case Begin(cid, qType, flavour, deadlineSec) =>
      s.(requests := s.requests[cid := Request(qType, flavour, deadlineSec, Publishing)],
         table := PendingTable.Register(s.table, cid))
    case PublishReturns(cid) => SetPhase(s, cid, Waiting(s.now, false))
    case PublishRaises(cid) => SetPhase(s, cid, PublishFailed)
    case TimerFires(cid) => SetPhase(s, cid, s.requests[cid].phase.(timerFired := true))
    case WaiterWakes(cid) =>
      var f := s.table.futures[cid];
      if f.Resolved? then SetPhase(s, cid, Answered(f.reply))
      else SetPhase(s, cid, Cancelling).(table := PendingTable.Cancel(s.table, cid))
    case DropExpired(cid) => SetPhase(s, cid, TimedOut).(table := PendingTable.Forget(s.table, cid))
    case ReplyArrives(reply) =>
      s.(replies := s.replies - multiset{reply}, table := PendingTable.OnReply(s.table, reply))
  }

  function ApplyBroker(p: Params, s: State, e: BrokerEvent): State
    requires BrokerEnabled(s, e)
  {
    match e
    case Accept(cid) => AcceptMessage(p, s, cid)
    case Expire(cid) => ExpireMessage(s, cid)
    case Deliver(cid) => DeliverMessage(s, cid)
    case ChannelLoss => s.(broker := s.broker.(epoch := s.broker.epoch + 1))
    case RequeueOrphan(tag) => Requeue(s, tag)
    case Subscribe(q) => s.(broker := s.broker.(subscribed := s.broker.subscribed + {q}))
    case Unsubscribe(q) => s.(broker := s.broker.(subscribed := s.broker.subscribed - {q}))
  }

  function ApplyWorker(s: State, e: WorkerEvent): State
    requires WorkerEnabled(s, e)
  {
    var h := s.handlers[e.tag];
    match e
    case TakePermit(tag) =>
      SetStage(s.(permits := s.permits[h.queue := s.permits[h.queue] - 1]), tag, Admitted)
    case Start(tag, wellFormed) => StartForward(s, tag, wellFormed)
    case Respond(tag, a) => AfterAttempt(s, tag, a)
    case Wake(tag) => SendAgain(s, tag)
    case PublishReply(tag) => SetStage(Publish(s, h.stage.reply), tag, Replied)
    case PublishReplyFails(tag, sent) => Finish(if sent then Publish(s, h.stage.reply) else s, tag)
    case Ack(tag) => Finish(if Settleable(s.broker, tag) then Acknowledge(s, tag) else s, tag)
    case Nack(tag) => Finish(if Settleable(s.broker, tag) then Requeue(s, tag) else s, tag)
  }

  function ApplyWorld(s: State, e: WorldEvent): State
    requires WorldEnabled(s, e)
  {
    match e
    case SetFlag(on) => s.(enabled := on)
    case Tick(elapsed) => s.(now := s.now + elapsed)
    case ReplyLost(reply) => s.(replies := s.replies - multiset{reply})
  }

  function Apply(p: Params, s: State, e: Event): State
    requires Enabled(s, e)
  {
    match e
    case OfRouter(r) => ApplyRouter(s, r)
    case OfBroker(b) => ApplyBroker(p, s, b)
    case OfWorker(w) => ApplyWorker(s, w)
    case OfWorld(x) => ApplyWorld(s, x)
  }

  // ---------------------------------------------------------------- runs

  /** The events happen one after the other, each enabled when its turn comes. */
  predicate IsRun(p: Params, s: State, es: seq<Event>)
    decreases |es|
  {
    es == [] || (Enabled(s, es[0]) && IsRun(p, Apply(p, s, es[0]), es[1..]))
  }

  function Exec(p: Params, s: State, es: seq<Event>): State
    requires IsRun(p, s, es)
    decreases |es|
  {
    if es == [] then s else Exec(p, Apply(p, s, es[0]), es[1..])
  }
}
