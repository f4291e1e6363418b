/** What every reachable state of the protocol satisfies. */
module ProtocolSafety {
  import opened Wrappers
  import opened PendingTable
  import opened Routing
  import opened Protocol

  // ---------------------------------------------------------------- what a step leaves alone

  lemma RouterFrame(s: State, e: RouterEvent)
    requires RouterEnabled(s, e)
    ensures var s' := ApplyRouter(s, e);
      s' == s.(requests := s'.requests, table := s'.table, replies := s'.replies) && s'.replies <= s.replies
  {
    hide PendingTable.OnReply;
    hide PendingTable.Cancel;
  }

  lemma WorldFrame(s: State, e: WorldEvent)
    requires WorldEnabled(s, e)
    ensures var s' := ApplyWorld(s, e);
      && s' == s.(now := s'.now, enabled := s'.enabled, replies := s'.replies)
      && s'.now >= s.now && s'.replies <= s.replies
  {
  }

  /** A broker event starts at most one handler, that of a new delivery. */
  lemma BrokerFrame(p: Params, s: State, e: BrokerEvent)
    requires BrokerEnabled(s, e)
    ensures var s' := ApplyBroker(p, s, e);
      && s' == s.(broker := s'.broker, ledger := s'.ledger, handlers := s'.handlers)
      && s'.ledger.published == s.ledger.published
      && (if e.Deliver? then
            s'.handlers == s.handlers[s.broker.nextTag := Handler(e.cid, s.broker.messages[e.cid].queue, Queued)]
            && s'.broker.nextTag == s.broker.nextTag + 1
            && s'.broker.unacked == s.broker.unacked[s.broker.nextTag := Delivery(e.cid, s.broker.epoch)]
          else s'.handlers == s.handlers)
  {
    hide AcceptMessage;
    if e.Accept? { AcceptRoutes(p, s, e.cid); }
  }

  /** A worker event concerns one handler, which stays on its message or ends. */
  lemma WorkerFrame(s: State, e: WorkerEvent)
    requires WorkerEnabled(s, e)
    ensures var s' := ApplyWorker(s, e);
      && s' == s.(broker := s'.broker, ledger := s'.ledger, handlers := s'.handlers,
                  permits := s'.permits, replies := s'.replies)
      && (s'.handlers == s.handlers - {e.tag}
          || (e.tag in s'.handlers
              && s'.handlers == s.handlers[e.tag := s.handlers[e.tag].(stage := s'.handlers[e.tag].stage)]))
  {
    hide Settleable;
  }

  // ---------------------------------------------------------------- conservation of messages

  function QueueCount(place: map<Cid, Place>, slot: Slot): nat {
    if slot.cid in place && place[slot.cid] == InQueue(slot.queue) then 1 else 0
  }

  /** The broker's collections agree with the ledger's single place per message. */
  ghost predicate PlacesAgree(b: Broker, place: map<Cid, Place>) {
    && place.Keys == b.messages.Keys
    && b.messages.Keys <= b.accepted
    && (forall slot :: b.ready[slot] == QueueCount(place, slot))
    && (forall c :: c in place && place[c].InQueue? ==> place[c].queue == b.messages[c].queue)
    && (forall t :: t in b.unacked ==>
          t < b.nextTag && b.unacked[t].cid in place && place[b.unacked[t].cid] == HeldBy(t))
    && (forall c :: c in place && place[c].HeldBy? ==> place[c].tag in b.unacked && b.unacked[place[c].tag].cid == c)
    && (forall c :: c in b.acked <==> c in place && place[c].Acked?)
    && (forall c :: c in b.expired <==> c in place && place[c].Expired?)
  }

  /** Each handler works on the message of its own delivery. */
  ghost predicate HandlersAgree(s: State) {
    forall t :: t in s.handlers ==> HandlerAgrees(s, t)
  }

  ghost predicate HandlerAgrees(s: State, t: Tag)
    requires t in s.handlers
  {
    && t < s.broker.nextTag
    && s.handlers[t].cid in s.broker.messages
    && s.handlers[t].queue == s.broker.messages[s.handlers[t].cid].queue
    && (t in s.broker.unacked ==> s.broker.unacked[t].cid == s.handlers[t].cid)
  }

  ghost predicate BrokerInv(s: State) {
    PlacesAgree(s.broker, s.ledger.place) && HandlersAgree(s)
  }

  lemma AcceptKeepsPlaces(b: Broker, place: map<Cid, Place>, cid: Cid, m: Message)
    requires PlacesAgree(b, place) && cid !in b.accepted
    ensures PlacesAgree(b.(accepted := b.accepted + {cid}, messages := b.messages[cid := m],
                           ready := b.ready + multiset{Slot(m.queue, cid)}),
                        place[cid := InQueue(m.queue)])
  {
  }

  lemma ExpireKeepsPlaces(b: Broker, place: map<Cid, Place>, cid: Cid)
    requires PlacesAgree(b, place) && cid in b.messages && Slot(b.messages[cid].queue, cid) in b.ready
    ensures PlacesAgree(b.(ready := b.ready - multiset{Slot(b.messages[cid].queue, cid)},
                           expired := b.expired + {cid}),
                        place[cid := Expired])
  {
  }

  lemma DeliverKeepsPlaces(b: Broker, place: map<Cid, Place>, cid: Cid)
    requires PlacesAgree(b, place) && cid in b.messages && Slot(b.messages[cid].queue, cid) in b.ready
    ensures PlacesAgree(b.(ready := b.ready - multiset{Slot(b.messages[cid].queue, cid)},
                           unacked := b.unacked[b.nextTag := Delivery(cid, b.epoch)],
                           nextTag := b.nextTag + 1),
                        place[cid := HeldBy(b.nextTag)])
  {
  }

  lemma RequeueKeepsPlaces(b: Broker, place: map<Cid, Place>, tag: Tag)
    requires PlacesAgree(b, place) && tag in b.unacked && b.unacked[tag].cid in b.messages
    ensures var cid := b.unacked[tag].cid;
      PlacesAgree(b.(ready := b.ready + multiset{Slot(b.messages[cid].queue, cid)},
                     unacked := b.unacked - {tag}),
                  place[cid := InQueue(b.messages[cid].queue)])
  {
  }

  lemma AckKeepsPlaces(b: Broker, place: map<Cid, Place>, tag: Tag)
    requires PlacesAgree(b, place) && tag in b.unacked
    ensures PlacesAgree(b.(unacked := b.unacked - {tag}, acked := b.acked + {b.unacked[tag].cid}),
                        place[b.unacked[tag].cid := Acked])
  {
  }

  lemma OneSlot(q: QueueId, cid: Cid)
    ensures SlotsIn({q}, cid) == multiset{Slot(q, cid)}
  {
    assert (set k | k in {q} :: Slot(k, cid)) == {Slot(q, cid)};
  }

  lemma UnknownIsDropped(p: Params, s: State, cid: Cid)
    requires cid in s.requests && ParseFlavour(s.requests[cid].flavour).None?
    ensures AcceptMessage(p, s, cid) == s.(broker := s.broker.(accepted := s.broker.accepted + {cid}))
  {
    ExactRouting(s.requests[cid].qType, s.requests[cid].flavour, p.ns, p.svc);
    hide Route;
    hide MessageHeaders;
    hide ParseFlavour;
  }

  lemma RoutedIsQueued(p: Params, s: State, cid: Cid, q: QueueId)
    requires cid in s.requests
    requires var r := s.requests[cid];
      && Route(MessageHeaders(r.qType, r.flavour, p.ns, p.svc)) == {q}
      && ParseFlavour(r.flavour) == Some(q.flavour) && q.qType == r.qType
    ensures AcceptMessage(p, s, cid) ==
      Enqueue(s, cid, Message(q, s.now, s.now + DeadlineMs(s.requests[cid]) * p.ttlUnit), multiset{Slot(q, cid)})
  {
    OneSlot(q, cid);
    hide Route;
    hide MessageHeaders;
    hide ParseFlavour;
    hide SlotsIn;
    hide Enqueue;
    hide DeadlineMs;
  }

  lemma KnownIsQueued(p: Params, s: State, cid: Cid)
    requires cid in s.requests && ParseFlavour(s.requests[cid].flavour).Some?
    ensures var r := s.requests[cid];
      var q := QueueId(r.qType, ParseFlavour(r.flavour).value);
      AcceptMessage(p, s, cid) ==
        Enqueue(s, cid, Message(q, s.now, s.now + DeadlineMs(r) * p.ttlUnit), multiset{Slot(q, cid)})
  {
    var r := s.requests[cid];
    ExactRouting(r.qType, r.flavour, p.ns, p.svc);
    RoutedIsQueued(p, s, cid, QueueId(r.qType, ParseFlavour(r.flavour).value));
    hide AcceptMessage;
    hide Enqueue;
    hide Route;
    hide ParseFlavour;
  }

  lemma EnqueueParts(s: State, cid: Cid, m: Message)
    ensures var b := s.broker;
      Enqueue(s, cid, m, multiset{Slot(m.queue, cid)}) == s.(
        broker := b.(accepted := b.accepted + {cid}, messages := b.messages[cid := m],
                     ready := b.ready + multiset{Slot(m.queue, cid)}),
        ledger := s.ledger.(place := s.ledger.place[cid := InQueue(m.queue)],
                            tally := s.ledger.tally[cid := Tally(0, 0, 0)]))
  {
  }

  /** What accepting does: an unknown flavour is dropped, a known one goes to its one queue. */
  lemma AcceptRoutes(p: Params, s: State, cid: Cid)
    requires cid in s.requests
    ensures var r := s.requests[cid];
      var b := s.broker.(accepted := s.broker.accepted + {cid});
      match ParseFlavour(r.flavour)
      case None => AcceptMessage(p, s, cid) == s.(broker := b)
      case Some(f) =>
        var q := QueueId(r.qType, f);
        var m := Message(q, s.now, s.now + DeadlineMs(r) * p.ttlUnit);
        AcceptMessage(p, s, cid) == s.(
          broker := b.(messages := b.messages[cid := m], ready := b.ready + multiset{Slot(q, cid)}),
          ledger := s.ledger.(place := s.ledger.place[cid := InQueue(q)],
                              tally := s.ledger.tally[cid := Tally(0, 0, 0)]))
  {
    hide AcceptMessage;
    hide Enqueue;
    var r := s.requests[cid];
    match ParseFlavour(r.flavour)
    case None => UnknownIsDropped(p, s, cid);
    case Some(f) =>
      KnownIsQueued(p, s, cid);
      EnqueueParts(s, cid, Message(QueueId(r.qType, f), s.now, s.now + DeadlineMs(r) * p.ttlUnit));
  }

  lemma AcceptStepKeepsPlaces(p: Params, s: State, cid: Cid)
    requires PlacesAgree(s.broker, s.ledger.place) && BrokerEnabled(s, Accept(cid))
    ensures PlacesAgree(AcceptMessage(p, s, cid).broker, AcceptMessage(p, s, cid).ledger.place)
  {
    hide AcceptMessage;
    AcceptRoutes(p, s, cid);
    var r := s.requests[cid];
    match ParseFlavour(r.flavour)
    case None =>
    case Some(f) =>
      AcceptKeepsPlaces(s.broker, s.ledger.place, cid,
                        Message(QueueId(r.qType, f), s.now, s.now + DeadlineMs(r) * p.ttlUnit));
  }

  lemma SwitchKeepsPlaces(b: Broker, place: map<Cid, Place>, epoch: nat, subscribed: set<QueueId>)
    requires PlacesAgree(b, place)
    ensures PlacesAgree(b.(epoch := epoch, subscribed := subscribed), place)
  {
  }

  lemma BrokerStepKeepsPlaces(p: Params, s: State, e: BrokerEvent)
    requires PlacesAgree(s.broker, s.ledger.place) && BrokerEnabled(s, e)
    ensures PlacesAgree(ApplyBroker(p, s, e).broker, ApplyBroker(p, s, e).ledger.place)
  {
    hide PlacesAgree;
    hide AcceptMessage;
    match e
    case Accept(cid) => AcceptStepKeepsPlaces(p, s, cid);
    case Expire(cid) => ExpireKeepsPlaces(s.broker, s.ledger.place, cid);
    case Deliver(cid) => DeliverKeepsPlaces(s.broker, s.ledger.place, cid);
    case RequeueOrphan(tag) => RequeueKeepsPlaces(s.broker, s.ledger.place, tag);
    case ChannelLoss => SwitchKeepsPlaces(s.broker, s.ledger.place, s.broker.epoch + 1, s.broker.subscribed);
    case Subscribe(q) => SwitchKeepsPlaces(s.broker, s.ledger.place, s.broker.epoch, s.broker.subscribed + {q});
    case Unsubscribe(q) => SwitchKeepsPlaces(s.broker, s.ledger.place, s.broker.epoch, s.broker.subscribed - {q});
  }

  lemma WorkerStepKeepsPlaces(s: State, e: WorkerEvent)
    requires PlacesAgree(s.broker, s.ledger.place) && WorkerEnabled(s, e)
    ensures PlacesAgree(ApplyWorker(s, e).broker, ApplyWorker(s, e).ledger.place)
  {
    hide PlacesAgree;
    if e.Nack? && Settleable(s.broker, e.tag) {
      RequeueKeepsPlaces(s.broker, s.ledger.place, e.tag);
    } else if e.Ack? && Settleable(s.broker, e.tag) {
      AckKeepsPlaces(s.broker, s.ledger.place, e.tag);
    }
  }

  lemma StepKeepsPlaces(p: Params, s: State, e: Event)
    requires PlacesAgree(s.broker, s.ledger.place) && Enabled(s, e)
    ensures PlacesAgree(Apply(p, s, e).broker, Apply(p, s, e).ledger.place)
  {
    hide PlacesAgree;
    match e
    case OfBroker(b) => BrokerStepKeepsPlaces(p, s, b);
    case OfWorker(w) => WorkerStepKeepsPlaces(s, w);
    case OfRouter(r) =>
    case OfWorld(x) =>
  }

  // ---------------------------------------------------------------- the end of a handler

  /** The events that end a handler. */
  predicate Ends(e: WorkerEvent) {
    e.PublishReplyFails? || e.Ack? || e.Nack?
  }

  /** Delivered on the channel as it is now. */
  predicate Current(b: Broker, t: Tag) {
    t in b.unacked && b.unacked[t].epoch == b.epoch
  }

  /** A worker event that does not end its handler leaves deliveries and handlers in place. */
  lemma WorkerGoesOn(s: State, e: WorkerEvent)
    requires WorkerEnabled(s, e) && !Ends(e)
    ensures ApplyWorker(s, e).broker == s.broker
    ensures ApplyWorker(s, e).handlers.Keys == s.handlers.Keys
  {
  }

  /** What a handler's end leaves of the broker's deliveries. */
  ghost predicate EndsAt(s: State, s': State, tag: Tag, raised: bool) {
    && s'.broker.nextTag == s.broker.nextTag && s'.broker.epoch == s.broker.epoch
    && s'.handlers == s.handlers - {tag}
    && s'.broker.unacked == if Current(s.broker, tag) && !raised then s.broker.unacked - {tag} else s.broker.unacked
  }

  lemma FinishEnds(s: State, s': State, tag: Tag, raised: bool)
    requires tag in s'.handlers && s'.handlers == s.handlers
    requires s'.broker.nextTag == s.broker.nextTag && s'.broker.epoch == s.broker.epoch
    requires s'.broker.unacked ==
      if Current(s.broker, tag) && !raised then s.broker.unacked - {tag} else s.broker.unacked
    ensures EndsAt(s, Finish(s', tag), tag, raised)
  {
  }

  lemma WorkerEnds(s: State, e: WorkerEvent)
    requires WorkerEnabled(s, e) && Ends(e)
    requires e.tag in s.broker.unacked ==> s.broker.unacked[e.tag].cid in s.broker.messages
    ensures EndsAt(s, ApplyWorker(s, e), e.tag, e.PublishReplyFails?)
  {
    hide Finish;
    hide EndsAt;
    match e
    case Ack(tag) => FinishEnds(s, if Settleable(s.broker, tag) then Acknowledge(s, tag) else s, tag, false);
    case Nack(tag) => FinishEnds(s, if Settleable(s.broker, tag) then Requeue(s, tag) else s, tag, false);
    case PublishReplyFails(tag, sent) =>
      FinishEnds(s, if sent then Publish(s, s.handlers[tag].stage.reply) else s, tag, true);
  }

  // ---------------------------------------------------------------- handlers and their messages

  /** Messages never change once accepted, tags only grow, and a delivery keeps its tag. */
  ghost predicate BrokerGrows(b: Broker, b': Broker) {
    && b.nextTag <= b'.nextTag && b.epoch <= b'.epoch && b.accepted <= b'.accepted
    && (forall c :: c in b.messages ==> c in b'.messages && b'.messages[c] == b.messages[c])
    && (forall t :: t in b'.unacked && t < b.nextTag ==> t in b.unacked && b'.unacked[t] == b.unacked[t])
  }

  lemma AcceptGrows(p: Params, s: State, cid: Cid)
    requires BrokerEnabled(s, Accept(cid)) && s.broker.messages.Keys <= s.broker.accepted
    ensures BrokerGrows(s.broker, AcceptMessage(p, s, cid).broker)
  {
    AcceptRoutes(p, s, cid);
    hide AcceptMessage;
  }

  lemma BrokerStepGrows(p: Params, s: State, e: BrokerEvent)
    requires BrokerEnabled(s, e) && s.broker.messages.Keys <= s.broker.accepted
    ensures BrokerGrows(s.broker, ApplyBroker(p, s, e).broker)
  {
    hide AcceptMessage;
    if e.Accept? {
      AcceptGrows(p, s, e.cid);
      hide BrokerGrows;
    }
  }

  lemma WorkerStepGrows(s: State, e: WorkerEvent)
    requires WorkerEnabled(s, e)
    ensures BrokerGrows(s.broker, ApplyWorker(s, e).broker)
    ensures ApplyWorker(s, e).broker.nextTag == s.broker.nextTag
  {
    if Ends(e) {
      EndGrows(s, e);
    } else {
      WorkerGoesOn(s, e);
    }
    hide ApplyWorker;
  }

  lemma FinishKeepsBroker(s: State, tag: Tag)
    requires tag in s.handlers
    ensures Finish(s, tag).broker == s.broker
  {
  }

  lemma EndGrows(s: State, e: WorkerEvent)
    requires WorkerEnabled(s, e) && Ends(e)
    ensures BrokerGrows(s.broker, ApplyWorker(s, e).broker)
    ensures ApplyWorker(s, e).broker.nextTag == s.broker.nextTag
  {
    hide Finish;
    match e
    case Ack(tag) => FinishKeepsBroker(if Settleable(s.broker, tag) then Acknowledge(s, tag) else s, tag);
    case Nack(tag) => FinishKeepsBroker(if Settleable(s.broker, tag) then Requeue(s, tag) else s, tag);
    case PublishReplyFails(tag, sent) =>
      FinishKeepsBroker(if sent then Publish(s, s.handlers[tag].stage.reply) else s, tag);
  }

  lemma BrokerStepKeepsHandlers(p: Params, s: State, e: BrokerEvent)
    requires BrokerInv(s) && BrokerEnabled(s, e)
    ensures HandlersAgree(ApplyBroker(p, s, e))
  {
    hide ApplyBroker;
    BrokerStepGrows(p, s, e);
    BrokerFrame(p, s, e);
  }

  lemma WorkerStepKeepsHandlers(s: State, e: WorkerEvent)
    requires BrokerInv(s) && WorkerEnabled(s, e)
    ensures HandlersAgree(ApplyWorker(s, e))
  {
    hide ApplyWorker;
    hide PlacesAgree;
    WorkerStepGrows(s, e);
    WorkerFrame(s, e);
  }

  lemma StepKeepsBroker(p: Params, s: State, e: Event)
    requires BrokerInv(s) && Enabled(s, e)
    ensures BrokerInv(Apply(p, s, e))
  {
    hide PlacesAgree;
    hide ApplyRouter;
    hide ApplyBroker;
    hide ApplyWorker;
    hide ApplyWorld;
    StepKeepsPlaces(p, s, e);
    match e
    case OfBroker(b) => BrokerStepKeepsHandlers(p, s, b);
    case OfWorker(w) => WorkerStepKeepsHandlers(s, w);
    case OfRouter(r) => RouterFrame(s, r);
    case OfWorld(x) => WorldFrame(s, x);
  }

  // ---------------------------------------------------------------- permits

  /** The handlers inside the critical section of a queue's semaphore. */
  ghost function InSection(handlers: map<Tag, Handler>, q: QueueId): set<Tag> {
    set t | t in handlers && handlers[t].queue == q && !handlers[t].stage.Queued?
  }

  ghost predicate PermitsAddUp(p: Params, s: State) {
    AddUp(p.concurrency, s.permits, s.handlers)
  }

  ghost predicate AddUp(concurrency: nat, permits: map<QueueId, nat>, handlers: map<Tag, Handler>) {
    && permits.Keys == AllQueues()
    && forall q :: q in permits ==> permits[q] + |InSection(handlers, q)| == concurrency
  }

  lemma SectionUnchanged(h: map<Tag, Handler>, h': map<Tag, Handler>, tag: Tag)
    requires tag in h' && (forall t :: t != tag ==> (t in h <==> t in h') && (t in h ==> h[t] == h'[t]))
    requires tag in h ==> h[tag].queue == h'[tag].queue && h[tag].stage.Queued? == h'[tag].stage.Queued?
    requires tag !in h ==> h'[tag].stage.Queued?
    ensures forall q :: InSection(h', q) == InSection(h, q)
  {
  }

  lemma SameSections(n: nat, permits: map<QueueId, nat>, h: map<Tag, Handler>, h': map<Tag, Handler>)
    requires AddUp(n, permits, h) && forall q :: InSection(h', q) == InSection(h, q)
    ensures AddUp(n, permits, h')
  {
  }

  lemma AdmitAddsUp(n: nat, permits: map<QueueId, nat>, h: map<Tag, Handler>, tag: Tag)
    requires AddUp(n, permits, h) && tag in h && h[tag].stage.Queued?
    requires h[tag].queue in permits && permits[h[tag].queue] > 0
    ensures AddUp(n, permits[h[tag].queue := permits[h[tag].queue] - 1], h[tag := h[tag].(stage := Admitted)])
  {
    var h' := h[tag := h[tag].(stage := Admitted)];
    forall q | q in permits
      ensures InSection(h', q) == if q == h[tag].queue then InSection(h, q) + {tag} else InSection(h, q)
    {
    }
  }

  lemma FinishAddsUp(n: nat, permits: map<QueueId, nat>, h: map<Tag, Handler>, tag: Tag)
    requires AddUp(n, permits, h) && tag in h && !h[tag].stage.Queued?
    ensures h[tag].queue in permits
    ensures AddUp(n, permits[h[tag].queue := permits[h[tag].queue] + 1], h - {tag})
  {
    AllQueuesIsAll(h[tag].queue);
    forall q | q in permits
      ensures InSection(h, q) == if q == h[tag].queue then InSection(h - {tag}, q) + {tag} else InSection(h - {tag}, q)
    {
    }
  }

  lemma FinishReleases(s: State, tag: Tag)
    requires tag in s.handlers
    ensures var s', q := Finish(s, tag), s.handlers[tag].queue;
      && (q in s.permits ==> s'.permits == s.permits[q := s.permits[q] + 1])
      && s'.handlers == s.handlers - {tag}
  {
  }

  lemma EndingReleases(s: State, e: WorkerEvent)
    requires WorkerEnabled(s, e) && Ends(e)
    ensures var s', q := ApplyWorker(s, e), s.handlers[e.tag].queue;
      && !s.handlers[e.tag].stage.Queued?
      && (q in s.permits ==> s'.permits == s.permits[q := s.permits[q] + 1])
      && s'.handlers == s.handlers - {e.tag}
  {
    hide Finish;
    match e
    case PublishReplyFails(tag, sent) =>
      FinishReleases(if sent then Publish(s, s.handlers[tag].stage.reply) else s, tag);
    case Ack(tag) => FinishReleases(if Settleable(s.broker, tag) then Acknowledge(s, tag) else s, tag);
    case Nack(tag) => FinishReleases(if Settleable(s.broker, tag) then Requeue(s, tag) else s, tag);
  }

  lemma TakingPermit(s: State, e: WorkerEvent)
    requires WorkerEnabled(s, e) && e.TakePermit?
    ensures var s', h := ApplyWorker(s, e), s.handlers[e.tag];
      && h.stage.Queued? && h.queue in s.permits && s.permits[h.queue] > 0
      && s'.permits == s.permits[h.queue := s.permits[h.queue] - 1]
      && s'.handlers == s.handlers[e.tag := h.(stage := Admitted)]
  {
  }

  lemma OthersKeepPermits(s: State, e: WorkerEvent)
    requires WorkerEnabled(s, e) && !Ends(e) && !e.TakePermit?
    ensures var s' := ApplyWorker(s, e);
      && s'.permits == s.permits && e.tag in s'.handlers
      && !s.handlers[e.tag].stage.Queued? && !s'.handlers[e.tag].stage.Queued?
  {
  }

  lemma WorkerStepKeepsPermits(p: Params, s: State, e: WorkerEvent)
    requires PermitsAddUp(p, s) && WorkerEnabled(s, e)
    ensures PermitsAddUp(p, ApplyWorker(s, e))
  {
    hide ApplyWorker;
    hide AddUp;
    if e.TakePermit? {
      TakingPermit(s, e);
      AdmitAddsUp(p.concurrency, s.permits, s.handlers, e.tag);
    } else if Ends(e) {
      EndingReleases(s, e);
      FinishAddsUp(p.concurrency, s.permits, s.handlers, e.tag);
    } else {
      OthersKeepPermits(s, e);
      WorkerFrame(s, e);
      SectionUnchanged(s.handlers, ApplyWorker(s, e).handlers, e.tag);
      SameSections(p.concurrency, s.permits, s.handlers, ApplyWorker(s, e).handlers);
    }
  }

  lemma StepKeepsPermits(p: Params, s: State, e: Event)
    requires PermitsAddUp(p, s) && HandlersAgree(s) && Enabled(s, e)
    ensures PermitsAddUp(p, Apply(p, s, e))
  {
    hide ApplyRouter;
    hide ApplyBroker;
    hide ApplyWorker;
    hide ApplyWorld;
    match e
    case OfBroker(b) =>
      BrokerFrame(p, s, b);
      if b.Deliver? {
        SectionUnchanged(s.handlers, ApplyBroker(p, s, b).handlers, s.broker.nextTag);
      }
    case OfWorker(w) => WorkerStepKeepsPermits(p, s, w);
    case OfRouter(r) => RouterFrame(s, r);
    case OfWorld(x) => WorldFrame(s, x);
  }

  // ---------------------------------------------------------------- replies

  function Answered(published: set<Reply>): set<Cid> {
    set r | r in published :: r.correlationId
  }

  ghost predicate StageTruthful(s: State, h: Handler) {
    && (h.stage.Replying? ==> h.stage.reply.correlationId == h.cid)
    && (h.stage.Replied? ==> h.cid in Answered(s.ledger.published))
  }

  /** Every reply answers a routed message, and nothing is acknowledged before its reply went out. */
  ghost predicate RepliesTruthful(s: State) {
    && (forall r :: r in s.replies ==> r in s.ledger.published)
    && (forall r :: r in s.ledger.published ==> r.correlationId in s.broker.messages)
    && (forall t :: t in s.handlers ==> StageTruthful(s, s.handlers[t]))
    && s.broker.acked <= Answered(s.ledger.published)
  }

  lemma BrokerStepAcks(p: Params, s: State, e: BrokerEvent)
    requires BrokerEnabled(s, e)
    ensures ApplyBroker(p, s, e).broker.acked == s.broker.acked
  {
    hide AcceptMessage;
    if e.Accept? { AcceptRoutes(p, s, e.cid); }
  }

  lemma BrokerStepKeepsReplies(p: Params, s: State, e: BrokerEvent)
    requires s.broker.messages.Keys <= s.broker.accepted && RepliesTruthful(s) && BrokerEnabled(s, e)
    ensures RepliesTruthful(ApplyBroker(p, s, e))
  {
    hide ApplyBroker;
    BrokerFrame(p, s, e);
    BrokerStepGrows(p, s, e);
    BrokerStepAcks(p, s, e);
  }

  /** A reply goes out when it is published, and may go out when publishing fails. */
  lemma PublishingReplies(s: State, e: WorkerEvent)
    requires WorkerEnabled(s, e) && (e.PublishReply? || e.PublishReplyFails?)
    ensures var s', r := ApplyWorker(s, e), s.handlers[e.tag].stage.reply;
      && ((s'.ledger.published == s.ledger.published + {r} && s'.replies == s.replies + multiset{r})
          || (e.PublishReplyFails? && s'.ledger.published == s.ledger.published && s'.replies == s.replies))
      && s'.broker == s.broker
      && (e.PublishReply? ==> e.tag in s'.handlers && s'.handlers[e.tag].stage == Replied)
      && (e.PublishReplyFails? ==> e.tag !in s'.handlers)
  {
  }

  lemma EndingPublishesNothing(s: State, e: WorkerEvent)
    requires WorkerEnabled(s, e) && (e.Ack? || e.Nack?)
    ensures ApplyWorker(s, e).ledger.published == s.ledger.published && ApplyWorker(s, e).replies == s.replies
    ensures e.tag !in ApplyWorker(s, e).handlers
  {
    hide Settleable;
  }

  lemma OthersPublishNothing(s: State, e: WorkerEvent)
    requires WorkerEnabled(s, e) && !e.PublishReply? && !e.PublishReplyFails?
    ensures var s', h := ApplyWorker(s, e), s.handlers[e.tag];
      && s'.ledger.published == s.ledger.published && s'.replies == s.replies
      && (e.tag in s'.handlers ==>
            var g := s'.handlers[e.tag].stage;
            !g.Replied? && (g.Replying? ==> g.reply.correlationId == h.cid))
  {
    if Ends(e) {
      EndingPublishesNothing(s, e);
      hide ApplyWorker;
    }
  }

  lemma WorkerStepAcks(s: State, e: WorkerEvent)
    requires WorkerEnabled(s, e)
    ensures ApplyWorker(s, e).broker.acked <= s.broker.acked
      + if e.Ack? && Settleable(s.broker, e.tag) then {s.broker.unacked[e.tag].cid} else {}
    ensures ApplyWorker(s, e).broker.messages == s.broker.messages
  {
  }

  lemma WorkerStepKeepsReplies(s: State, e: WorkerEvent)
    requires HandlersAgree(s) && RepliesTruthful(s) && WorkerEnabled(s, e)
    ensures RepliesTruthful(ApplyWorker(s, e))
  {
    hide ApplyWorker;
    var s', h := ApplyWorker(s, e), s.handlers[e.tag];
    WorkerFrame(s, e);
    WorkerStepAcks(s, e);
    assert StageTruthful(s, h) && HandlerAgrees(s, e.tag);
    if e.PublishReply? || e.PublishReplyFails? {
      PublishingReplies(s, e);
    } else {
      OthersPublishNothing(s, e);
    }
    assert s.ledger.published <= s'.ledger.published;
    AnsweredGrows(s.ledger.published, s'.ledger.published);
    assert e.PublishReply? ==> h.cid in Answered(s'.ledger.published) by {
      if e.PublishReply? { assert h.stage.reply in s'.ledger.published; }
    }
    forall t | t in s'.handlers ensures StageTruthful(s', s'.handlers[t]) {
      if t != e.tag { assert StageTruthful(s, s.handlers[t]); }
    }
    hide Settleable;
  }

  lemma AnsweredGrows(published: set<Reply>, more: set<Reply>)
    requires published <= more
    ensures Answered(published) <= Answered(more)
  {
  }

  lemma FewerReplies(s: State, s': State)
    requires RepliesTruthful(s) && s'.replies <= s.replies
    requires s'.ledger == s.ledger && s'.handlers == s.handlers && s'.broker == s.broker
    ensures RepliesTruthful(s')
  {
    forall t | t in s'.handlers ensures StageTruthful(s', s'.handlers[t]) {
      assert StageTruthful(s, s.handlers[t]);
    }
  }

  lemma StepKeepsReplies(p: Params, s: State, e: Event)
    requires BrokerInv(s) && RepliesTruthful(s) && Enabled(s, e)
    ensures RepliesTruthful(Apply(p, s, e))
  {
    assert s.broker.messages.Keys <= s.broker.accepted && HandlersAgree(s);
    hide BrokerInv;
    hide RepliesTruthful;
    hide ApplyRouter;
    hide ApplyBroker;
    hide ApplyWorker;
    hide ApplyWorld;
    match e
    case OfBroker(b) => BrokerStepKeepsReplies(p, s, b);
    case OfWorker(w) => WorkerStepKeepsReplies(s, w);
    case OfRouter(r) =>
      RouterFrame(s, r);
      FewerReplies(s, Apply(p, s, e));
    case OfWorld(x) =>
      WorldFrame(s, x);
      FewerReplies(s, Apply(p, s, e));
  }

  // ---------------------------------------------------------------- the pending table

  /** The future, the table and the coroutine of one request agree. */
  ghost predicate RequestAgrees(cid: Cid, phase: Phase, f: FutureState, isPending: bool, published: set<Reply>) {
    && (f.Undone? ==> isPending)
    && (f.Resolved? ==> !isPending && f.reply.correlationId == cid && f.reply in published)
    && match phase
       case Publishing => !f.Cancelled?
       case PublishFailed => !f.Cancelled?
       case Waiting(_, _) => !f.Cancelled?
       case Cancelling => f.Cancelled?
       case Answered(r) => f == Resolved(r)
       case TimedOut => f.Cancelled? && !isPending
  }

  ghost predicate TableAgrees(s: State) {
    && s.table.futures.Keys == s.requests.Keys
    && s.table.pending <= s.requests.Keys
    && forall c :: c in s.requests ==>
         RequestAgrees(c, s.requests[c].phase, s.table.futures[c], c in s.table.pending, s.ledger.published)
  }

  /** A reply changes nothing for any request but its own. */
  lemma ReplyTouchesOnlyItsRequest(t: Table, reply: Reply)
    ensures var t' := OnReply(t, reply);
      && t'.futures.Keys == t.futures.Keys && t'.pending <= t.pending
      && forall c :: c != reply.correlationId ==>
           (c in t'.pending <==> c in t.pending) && (c in t.futures ==> t'.futures[c] == t.futures[c])
  {
  }

  lemma ReplyKeepsTable(s: State, reply: Reply)
    requires TableAgrees(s) && reply in s.ledger.published
    ensures TableAgrees(s.(replies := s.replies - multiset{reply}, table := OnReply(s.table, reply)))
  {
    ReplyTouchesOnlyItsRequest(s.table, reply);
  }

  lemma RouterStepKeepsTable(s: State, e: RouterEvent)
    requires TableAgrees(s) && RepliesTruthful(s) && RouterEnabled(s, e)
    ensures TableAgrees(ApplyRouter(s, e))
  {
    if e.ReplyArrives? {
      ReplyKeepsTable(s, e.reply);
    } else {
      CoroutineStepKeepsTable(s, e);
    }
  }

  /** A coroutine event leaves the entries of the other requests alone. */
  lemma CoroutineTouchesItsOwn(s: State, e: RouterEvent, c: Cid)
    requires RouterEnabled(s, e) && !e.ReplyArrives? && c != e.cid
    ensures var s' := ApplyRouter(s, e);
      && (c in s'.requests <==> c in s.requests) && (c in s.requests ==> s'.requests[c] == s.requests[c])
      && (c in s'.table.futures <==> c in s.table.futures)
      && (c in s.table.futures ==> s'.table.futures[c] == s.table.futures[c])
      && (c in s'.table.pending <==> c in s.table.pending)
      && s'.ledger.published == s.ledger.published
  {
  }

  lemma CoroutineAgrees(s: State, e: RouterEvent)
    requires TableAgrees(s) && RouterEnabled(s, e) && !e.ReplyArrives?
    ensures var s', c := ApplyRouter(s, e), e.cid;
      && c in s'.requests && c in s'.table.futures
      && RequestAgrees(c, s'.requests[c].phase, s'.table.futures[c], c in s'.table.pending, s'.ledger.published)
  {
  }

  lemma CoroutineStepKeepsTable(s: State, e: RouterEvent)
    requires TableAgrees(s) && RouterEnabled(s, e) && !e.ReplyArrives?
    ensures TableAgrees(ApplyRouter(s, e))
  {
    CoroutineAgrees(s, e);
    hide ApplyRouter;
    hide RouterEnabled;
    hide RequestAgrees;
    var s' := ApplyRouter(s, e);
    forall c | c != e.cid
      ensures (c in s'.requests <==> c in s'.table.futures) && (c in s'.table.pending ==> c in s'.requests)
      ensures c in s'.requests ==>
        RequestAgrees(c, s'.requests[c].phase, s'.table.futures[c], c in s'.table.pending, s'.ledger.published)
    {
      CoroutineTouchesItsOwn(s, e, c);
    }
    assert s'.table.futures.Keys == s'.requests.Keys;
  }

  lemma PublishedGrows(p: Params, s: State, e: Event)
    requires Enabled(s, e)
    ensures s.ledger.published <= Apply(p, s, e).ledger.published
    ensures !e.OfRouter? ==> Apply(p, s, e).table == s.table && Apply(p, s, e).requests == s.requests
  {
    hide ApplyRouter;
    hide ApplyBroker;
    hide ApplyWorker;
    hide ApplyWorld;
    match e
    case OfBroker(b) => BrokerFrame(p, s, b);
    case OfWorker(w) =>
      WorkerFrame(s, w);
      if w.PublishReply? || w.PublishReplyFails? {
        PublishingReplies(s, w);
      } else {
        OthersPublishNothing(s, w);
      }
    case OfRouter(r) => RouterFrame(s, r);
    case OfWorld(x) => WorldFrame(s, x);
  }

  lemma StepKeepsTable(p: Params, s: State, e: Event)
    requires TableAgrees(s) && RepliesTruthful(s) && Enabled(s, e)
    ensures TableAgrees(Apply(p, s, e))
  {
    PublishedGrows(p, s, e);
    if e.OfRouter? {
      RouterStepKeepsTable(s, e.router);
    } else {
      hide Apply;
    }
  }
}
