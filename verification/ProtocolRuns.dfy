/** The protocol's promises over whole runs from the initial state. */
module ProtocolRuns {
  import opened Wrappers
  import opened PendingTable
  import opened Routing
  import opened Protocol
  import opened ProtocolSafety

  // ---------------------------------------------------------------- clocks

  ghost predicate MessageTimely(p: Params, s: State, c: Cid)
    requires c in s.broker.messages
  {
    && c in s.requests
    && s.broker.messages[c].routedAt <= s.now
    && s.broker.messages[c].expiry == s.broker.messages[c].routedAt + DeadlineMs(s.requests[c]) * p.ttlUnit
  }

  /** The wait of a request starts after its message was routed, and gives up a deadline later. */
  ghost predicate PhaseTimely(s: State, c: Cid)
    requires c in s.requests
  {
    var routed := c in s.broker.messages;
    match s.requests[c].phase
    case Waiting(since, timerFired) =>
      && c in s.broker.accepted && since <= s.now
      && (routed ==> s.broker.messages[c].routedAt <= since)
      && (timerFired ==> s.now >= since + DeadlineMs(s.requests[c]))
    case Cancelling =>
      c in s.broker.accepted && (routed ==> s.broker.messages[c].routedAt + DeadlineMs(s.requests[c]) <= s.now)
    case TimedOut =>
      c in s.broker.accepted && (routed ==> s.broker.messages[c].routedAt + DeadlineMs(s.requests[c]) <= s.now)
    case _ => true
  }

  ghost predicate ClocksAgree(p: Params, s: State) {
    && s.broker.accepted <= s.requests.Keys
    && (forall c :: c in s.broker.messages ==> MessageTimely(p, s, c))
    && (forall c :: c in s.requests ==> PhaseTimely(s, c))
  }

  /** A request that exists keeps its parameters, and a settled one keeps its outcome. */
  ghost predicate RequestsPersist(r: map<Cid, Request>, r': map<Cid, Request>) {
    forall c :: c in r ==>
      c in r' && r'[c] == r[c].(phase := r'[c].phase) && (Settled(r[c].phase) ==> r'[c] == r[c])
  }

  predicate Settled(phase: Phase) {
    phase.Answered? || phase.TimedOut? || phase.PublishFailed?
  }

  /** What a router event does to its request; the other requests stay as they are. */
  lemma RouterStepRequests(s: State, e: RouterEvent)
    requires RouterEnabled(s, e)
    ensures var r, r' := s.requests, ApplyRouter(s, e).requests;
      match e
      case Begin(cid, qType, flavour, deadlineSec) => r' == r[cid := Request(qType, flavour, deadlineSec, Publishing)]
      case PublishReturns(cid) => r' == r[cid := r[cid].(phase := Waiting(s.now, false))]
      case PublishRaises(cid) => r' == r[cid := r[cid].(phase := PublishFailed)]
      case TimerFires(cid) => r' == r[cid := r[cid].(phase := r[cid].phase.(timerFired := true))]
      case WaiterWakes(cid) =>
        r' == r[cid := r[cid].(phase := r'[cid].phase)]
        && (match s.table.futures[cid]
            case Undone => r'[cid].phase == Cancelling && r[cid].phase.timerFired
            case Resolved(reply) => r'[cid].phase == Answered(reply)
            case Cancelled => true)
      case DropExpired(cid) => r' == r[cid := r[cid].(phase := TimedOut)]
      case ReplyArrives(_) => r' == r
  {
    hide PendingTable.OnReply;
    hide PendingTable.Cancel;
  }

  lemma StepPersists(p: Params, s: State, e: Event)
    requires Enabled(s, e)
    ensures RequestsPersist(s.requests, Apply(p, s, e).requests)
  {
    if e.OfRouter? {
      RouterStepRequests(s, e.router);
      hide ApplyRouter;
    } else {
      PublishedGrows(p, s, e);
      hide Apply;
    }
  }

  lemma RouterStepKeepsPhaseTimely(s: State, e: RouterEvent, c: Cid)
    requires TableAgrees(s) && s.broker.accepted <= s.requests.Keys && RouterEnabled(s, e)
    requires s.broker.messages.Keys <= s.broker.accepted
    requires c in s.broker.messages ==> s.broker.messages[c].routedAt <= s.now
    requires c in s.requests ==> PhaseTimely(s, c)
    ensures c in ApplyRouter(s, e).requests ==> PhaseTimely(ApplyRouter(s, e), c)
  {
    RouterFrame(s, e);
    RouterStepRequests(s, e);
    if c in s.requests {
      assert RequestAgrees(c, s.requests[c].phase, s.table.futures[c], c in s.table.pending, s.ledger.published);
    }
    hide ApplyRouter;
    hide TableAgrees;
  }

  lemma RouterStepKeepsClocks(p: Params, s: State, e: RouterEvent)
    requires ClocksAgree(p, s) && TableAgrees(s) && s.broker.messages.Keys <= s.broker.accepted && RouterEnabled(s, e)
    ensures ClocksAgree(p, ApplyRouter(s, e))
  {
    RouterFrame(s, e);
    StepPersists(p, s, OfRouter(e));
    hide ApplyRouter;
    hide TableAgrees;
    var s' := ApplyRouter(s, e);
    forall c | c in s'.requests ensures PhaseTimely(s', c) {
      assert c in s.broker.messages ==> MessageTimely(p, s, c);
      assert c in s.requests ==> PhaseTimely(s, c);
      RouterStepKeepsPhaseTimely(s, e, c);
    }
    hide PhaseTimely;
    forall c | c in s'.broker.messages ensures MessageTimely(p, s', c) {
      assert MessageTimely(p, s, c);
    }
  }

  /** At most one message is new, that of the request, stamped with the time. */
  ghost predicate Stamped(p: Params, s: State, s': State, cid: Cid)
    requires cid in s.requests
  {
    && s'.requests == s.requests && s'.now == s.now && s'.broker.accepted == s.broker.accepted + {cid}
    && (s'.broker.messages == s.broker.messages
        || (cid in s'.broker.messages
            && s'.broker.messages == s.broker.messages[cid := s'.broker.messages[cid]]
            && s'.broker.messages[cid].routedAt == s.now
            && s'.broker.messages[cid].expiry == s.now + DeadlineMs(s.requests[cid]) * p.ttlUnit))
  }

  lemma AcceptStamps(p: Params, s: State, cid: Cid)
    requires BrokerEnabled(s, Accept(cid))
    ensures Stamped(p, s, AcceptMessage(p, s, cid), cid)
  {
    AcceptRoutes(p, s, cid);
    hide AcceptMessage;
    hide ParseFlavour;
  }

  lemma StampKeepsClocks(p: Params, s: State, s': State, cid: Cid)
    requires ClocksAgree(p, s) && s.broker.messages.Keys <= s.broker.accepted
    requires BrokerEnabled(s, Accept(cid)) && Stamped(p, s, s', cid)
    ensures ClocksAgree(p, s')
  {
    forall c | c in s'.requests ensures PhaseTimely(s', c) {
      assert PhaseTimely(s, c);
    }
    forall c | c in s'.broker.messages ensures MessageTimely(p, s', c) {
      if c != cid { assert MessageTimely(p, s, c); }
    }
  }

  lemma AcceptStepKeepsClocks(p: Params, s: State, e: BrokerEvent)
    requires ClocksAgree(p, s) && PlacesAgree(s.broker, s.ledger.place) && BrokerEnabled(s, e) && e.Accept?
    ensures ClocksAgree(p, ApplyBroker(p, s, e))
  {
    assert s.broker.messages.Keys <= s.broker.accepted;
    AcceptStamps(p, s, e.cid);
    StampKeepsClocks(p, s, AcceptMessage(p, s, e.cid), e.cid);
    hide AcceptMessage;
    hide ClocksAgree;
  }

  /** With the same messages and requests, time may pass. */
  lemma TimePassing(p: Params, s: State, s': State)
    requires ClocksAgree(p, s)
    requires s'.requests == s.requests && s'.now >= s.now
    requires s'.broker.messages == s.broker.messages && s'.broker.accepted == s.broker.accepted
    ensures ClocksAgree(p, s')
  {
    forall c | c in s'.requests ensures PhaseTimely(s', c) {
      assert PhaseTimely(s, c);
    }
    forall c | c in s'.broker.messages ensures MessageTimely(p, s', c) {
      assert MessageTimely(p, s, c);
    }
  }

  lemma BrokerStepMessages(p: Params, s: State, e: BrokerEvent)
    requires BrokerEnabled(s, e) && !e.Accept?
    ensures ApplyBroker(p, s, e).broker.messages == s.broker.messages
    ensures ApplyBroker(p, s, e).broker.accepted == s.broker.accepted
  {
  }

  lemma WorkerStepMessages(s: State, e: WorkerEvent)
    requires WorkerEnabled(s, e)
    ensures ApplyWorker(s, e).broker.messages == s.broker.messages
    ensures ApplyWorker(s, e).broker.accepted == s.broker.accepted
  {
    if Ends(e) {
      hide Finish;
      match e
      case Ack(tag) => FinishKeepsBroker(if Settleable(s.broker, tag) then Acknowledge(s, tag) else s, tag);
      case Nack(tag) => FinishKeepsBroker(if Settleable(s.broker, tag) then Requeue(s, tag) else s, tag);
      case PublishReplyFails(tag, sent) =>
        FinishKeepsBroker(if sent then Publish(s, s.handlers[tag].stage.reply) else s, tag);
    } else {
      WorkerGoesOn(s, e);
      hide ApplyWorker;
    }
  }

  lemma StepKeepsClocks(p: Params, s: State, e: Event)
    requires ClocksAgree(p, s) && TableAgrees(s) && PlacesAgree(s.broker, s.ledger.place) && Enabled(s, e)
    ensures ClocksAgree(p, Apply(p, s, e))
  {
    assert s.broker.messages.Keys <= s.broker.accepted;
    hide PlacesAgree;
    hide TableAgrees;
    hide ClocksAgree;
    hide ApplyRouter;
    hide ApplyBroker;
    hide ApplyWorker;
    match e
    case OfRouter(r) => RouterStepKeepsClocks(p, s, r);
    case OfBroker(b) =>
      if b.Accept? {
        AcceptStepKeepsClocks(p, s, b);
      } else {
        BrokerFrame(p, s, b);
        BrokerStepMessages(p, s, b);
        TimePassing(p, s, Apply(p, s, e));
      }
    case OfWorker(w) =>
      WorkerFrame(s, w);
      WorkerStepMessages(s, w);
      TimePassing(p, s, Apply(p, s, e));
    case OfWorld(x) =>
      WorldFrame(s, x);
      TimePassing(p, s, Apply(p, s, e));
  }

  // ---------------------------------------------------------------- the invariant of every run

  ghost predicate Inv(p: Params, s: State) {
    BrokerInv(s) && PermitsAddUp(p, s) && RepliesTruthful(s) && TableAgrees(s) && ClocksAgree(p, s)
  }

  lemma InitHolds(p: Params)
    ensures Inv(p, Init(p))
  {
    var s := Init(p);
    forall q | q in s.permits ensures |InSection(s.handlers, q)| == 0 {
      assert InSection(s.handlers, q) == {};
    }
  }

  lemma StepKeepsInv(p: Params, s: State, e: Event)
    requires Inv(p, s) && Enabled(s, e)
    ensures Inv(p, Apply(p, s, e))
  {
    hide Apply;
    hide PermitsAddUp;
    hide RepliesTruthful;
    hide TableAgrees;
    hide ClocksAgree;
    StepKeepsBroker(p, s, e);
    StepKeepsPermits(p, s, e);
    StepKeepsReplies(p, s, e);
    StepKeepsTable(p, s, e);
    StepKeepsClocks(p, s, e);
  }

  lemma {:induction false} RunKeepsInv(p: Params, s: State, es: seq<Event>)
    requires Inv(p, s) && IsRun(p, s, es)
    ensures Inv(p, Exec(p, s, es))
    decreases |es|
  {
    hide Inv;
    hide Apply;
    if es != [] {
      StepKeepsInv(p, s, es[0]);
      RunKeepsInv(p, Apply(p, s, es[0]), es[1..]);
    }
  }

  /** The state after a run from the start. */
  function Reached(p: Params, es: seq<Event>): State
    requires IsRun(p, Init(p), es)
  {
    Exec(p, Init(p), es)
  }

  lemma ReachedHolds(p: Params, es: seq<Event>)
    requires IsRun(p, Init(p), es)
    ensures Inv(p, Reached(p, es))
  {
    InitHolds(p);
    RunKeepsInv(p, Init(p), es);
  }

  // ---------------------------------------------------------------- conservation

  /** How often a message stands in the six queues together. */
  function ReadyCount(b: Broker, c: Cid): nat {
    b.ready[Slot(QueueId(Direct, High), c)] + b.ready[Slot(QueueId(Direct, Mid), c)]
    + b.ready[Slot(QueueId(Direct, Low), c)] + b.ready[Slot(QueueId(Buffered, High), c)]
    + b.ready[Slot(QueueId(Buffered, Mid), c)] + b.ready[Slot(QueueId(Buffered, Low), c)]
  }

  function TagsHolding(b: Broker, c: Cid): set<Tag> {
    set t | t in b.unacked && b.unacked[t].cid == c
  }

  /** In how many places the broker has a message: queues, unacknowledged deliveries, acked, expired. */
  function Copies(b: Broker, c: Cid): nat {
    ReadyCount(b, c) + |TagsHolding(b, c)| + (if c in b.acked then 1 else 0) + (if c in b.expired then 1 else 0)
  }

  lemma CopiesOfPlace(b: Broker, place: map<Cid, Place>, c: Cid)
    requires PlacesAgree(b, place)
    ensures Copies(b, c) == if c in b.messages then 1 else 0
  {
    if c in place && place[c].HeldBy? {
      assert TagsHolding(b, c) == {place[c].tag};
    } else {
      assert TagsHolding(b, c) == {};
    }
    if c in place && place[c].InQueue? {
      AllQueuesIsAll(place[c].queue);
    }
  }

  /** Main result: after any run each routed message is in exactly one place, whatever failed on the
      way, and it was acknowledged only if a reply with its id had been published. */
  lemma ExactlyOnePlace(p: Params, es: seq<Event>, c: Cid)
    requires IsRun(p, Init(p), es)
    ensures var s := Reached(p, es);
      && Copies(s.broker, c) == (if c in s.broker.messages then 1 else 0)
      && (c in s.broker.acked ==> exists r :: r in s.ledger.published && r.correlationId == c)
  {
    ReachedHolds(p, es);
    var s := Reached(p, es);
    CopiesOfPlace(s.broker, s.ledger.place, c);
  }

  /** A routed message never leaves the broker's books, so at every later point it is still in
      exactly one place. */
  lemma {:induction false} MessagesStay(p: Params, s: State, es: seq<Event>, c: Cid)
    requires Inv(p, s) && IsRun(p, s, es) && c in s.broker.messages
    ensures c in Exec(p, s, es).broker.messages
    ensures Exec(p, s, es).broker.messages[c] == s.broker.messages[c]
    ensures Copies(Exec(p, s, es).broker, c) == 1
    decreases |es|
  {
    if es == [] {
      CopiesOfPlace(s.broker, s.ledger.place, c);
    } else {
      StepKeepsInv(p, s, es[0]);
      StepKeepsMessage(p, s, es[0], c);
      MessagesStay(p, Apply(p, s, es[0]), es[1..], c);
    }
  }

  lemma StepKeepsMessage(p: Params, s: State, e: Event, c: Cid)
    requires Inv(p, s) && Enabled(s, e) && c in s.broker.messages
    ensures var s' := Apply(p, s, e);
      c in s'.broker.messages && s'.broker.messages[c] == s.broker.messages[c]
    ensures s.broker.nextTag <= Apply(p, s, e).broker.nextTag
  {
    StepGrows(p, s, e);
  }

  lemma StepGrows(p: Params, s: State, e: Event)
    requires PlacesAgree(s.broker, s.ledger.place) && Enabled(s, e)
    ensures BrokerGrows(s.broker, Apply(p, s, e).broker)
  {
    hide ApplyRouter;
    hide ApplyBroker;
    hide ApplyWorker;
    match e
    case OfRouter(r) => RouterFrame(s, r);
    case OfBroker(b) => BrokerStepGrows(p, s, b);
    case OfWorker(w) => WorkerStepGrows(s, w);
    case OfWorld(x) => WorldFrame(s, x);
  }

  // ---------------------------------------------------------------- one outcome per request

  /** Main result: once a request is answered, timed out or failed, no continuation changes that. */
  lemma {:induction false} OutcomeIsFinal(p: Params, s: State, es: seq<Event>, c: Cid)
    requires IsRun(p, s, es) && c in s.requests && Settled(s.requests[c].phase)
    ensures c in Exec(p, s, es).requests && Exec(p, s, es).requests[c] == s.requests[c]
    decreases |es|
  {
    if es != [] {
      StepPersists(p, s, es[0]);
      OutcomeIsFinal(p, Apply(p, s, es[0]), es[1..], c);
    }
  }

  /** The reply a request got carries its own id and was published for its message. */
  lemma AnswerIsItsOwn(p: Params, es: seq<Event>, c: Cid)
    requires IsRun(p, Init(p), es)
    ensures var s := Reached(p, es);
      c in s.requests && s.requests[c].phase.Answered? ==>
        var r := s.requests[c].phase.reply;
        r.correlationId == c && r in s.ledger.published && c in s.broker.messages
  {
    ReachedHolds(p, es);
    var s := Reached(p, es);
    if c in s.requests {
      assert RequestAgrees(c, s.requests[c].phase, s.table.futures[c], c in s.table.pending, s.ledger.published);
    }
  }

  /** A reply that arrives changes no request but its own, and nothing at all when its id is not
      waiting: unknown, answered before, or given up. */
  lemma LateRepliesAreHarmless(s: State, reply: Reply)
    requires RouterEnabled(s, ReplyArrives(reply)) && TableAgrees(s)
    ensures var s', own := ApplyRouter(s, ReplyArrives(reply)), reply.correlationId;
      && s'.requests == s.requests
      && (forall c :: c != own && c in s.requests ==>
            s'.table.futures[c] == s.table.futures[c] && (c in s'.table.pending <==> c in s.table.pending))
      && (own !in s.requests || !s.table.futures[own].Undone? ==> s'.table.futures == s.table.futures)
      && (own in s.requests && s.table.futures[own].Undone? ==> s'.table.futures[own] == Resolved(reply))
  {
    ReplyTouchesOnlyItsRequest(s.table, reply);
    var own := reply.correlationId;
    if own in s.requests {
      var f, isPending := s.table.futures[own], own in s.table.pending;
      assert RequestAgrees(own, s.requests[own].phase, f, isPending, s.ledger.published);
    }
  }

  // ---------------------------------------------------------------- the pending table

  /** A registered request that no reply has reached and nobody has given up on. */
  predicate Open(s: State, c: Cid) {
    && c in s.requests && c in s.table.futures && !s.table.futures[c].Resolved?
    && !s.requests[c].phase.Cancelling? && !s.requests[c].phase.TimedOut?
  }

  /** Main result: the undone futures of the table are exactly the open requests; any other entry
      belongs to a request whose wait is just being cancelled. */
  lemma TableHoldsOpenRequests(p: Params, es: seq<Event>, c: Cid)
    requires IsRun(p, Init(p), es)
    ensures var s := Reached(p, es);
      && (c in s.table.pending && c in s.table.futures && s.table.futures[c].Undone? <==> Open(s, c))
      && (c in s.table.pending && !Open(s, c) ==> c in s.requests && s.requests[c].phase.Cancelling?)
      && (Open(s, c) ==> !s.requests[c].phase.Answered?)
  {
    ReachedHolds(p, es);
    var s := Reached(p, es);
    if c in s.requests {
      assert RequestAgrees(c, s.requests[c].phase, s.table.futures[c], c in s.table.pending, s.ledger.published);
    }
  }

  /** A publish that raises leaves its entry behind although the request has settled. */
  lemma FailedPublishLeaksEntry(p: Params)
    ensures var es := [OfRouter(Begin(0, Direct, "low-power", 60)), OfRouter(PublishRaises(0))];
      && IsRun(p, Init(p), es)
      && var s := Reached(p, es);
         s.requests.Keys == {0} && Settled(s.requests[0].phase) && s.table.pending == {0}
  {
    var e0, e1 := OfRouter(Begin(0, Direct, "low-power", 60)), OfRouter(PublishRaises(0));
    var s1 := Apply(p, Init(p), e0);
    var s2 := Apply(p, s1, e1);
    assert IsRun(p, s2, []) && Exec(p, s2, []) == s2;
    assert [e0, e1][1..] == [e1] && [e1][1..] == [];
    assert IsRun(p, s1, [e1]) && Exec(p, s1, [e1]) == s2;
  }
}
