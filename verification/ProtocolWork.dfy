/** How much work one message can cause when its target keeps failing in the retryable way and the
    channel holds. */
module ProtocolWork {
  import opened Wrappers
  import opened PendingTable
  import opened Routing
  import opened Protocol
  import opened ProtocolSafety
  import opened ProtocolRuns
  import Retry

  /** One failed forward: five attempts with sleeps of 1, 2, 4 and 8 seconds between them. */
  function RoundsMs(n: int): int {
    15000 * n
  }

  predicate KeepsFailing(e: Event) {
    && !(e.OfBroker? && e.broker.ChannelLoss?)
    && (e.OfWorker? && e.worker.Start? ==> e.worker.wellFormed)
    && (e.OfWorker? && e.worker.Respond? ==> Retry.Retryable(e.worker.attempt))
  }

  predicate AllKeepFailing(es: seq<Event>) {
    forall i :: 0 <= i < |es| ==> KeepsFailing(es[i])
  }

  function DelayBefore(attempt: nat): nat
    requires attempt >= 1
  {
    Retry.DelayAt(Retry.FIRST_DELAY, Retry.FACTOR, attempt - 1)
  }

  /** What a forward has slept before an attempt. */
  function Slept(attempt: nat): int
    requires attempt >= 1
  {
    DelayBefore(attempt) - Retry.FIRST_DELAY
  }

  lemma SleptTable()
    ensures Slept(1) == 0 && DelayBefore(1) == 1000
    ensures Slept(Retry.MAX_RETRIES) == RoundsMs(1)
    ensures forall a :: a >= 1 ==> DelayBefore(a + 1) == DelayBefore(a) * Retry.FACTOR
  {
    Retry.DelayIsDoubled(1000, 4);
    assert Retry.Pow2(4) == 16;
  }

  /** Where a handler stands in its round: `n` forwards were begun or are due, `base` is when the
      message was routed. */
  ghost predicate StagePaced(g: Stage, n: nat, sends: nat, base: nat, now: nat) {
    match g
    case Queued => n >= 1 && now >= base + RoundsMs(n - 1) && sends <= 5 * (n - 1)
    case Admitted => n >= 1 && now >= base + RoundsMs(n - 1) && sends <= 5 * (n - 1)
    case Paused => now >= base + RoundsMs(n) && sends <= 5 * n
    case Sending(a, d) =>
      n >= 1 && 1 <= a <= 5 && d == DelayBefore(a)
      && now >= base + RoundsMs(n - 1) + Slept(a) && sends <= 5 * (n - 1) + a
    case Sleeping(a, d, until) =>
      n >= 1 && 1 <= a <= 4 && d == DelayBefore(a)
      && until >= base + RoundsMs(n - 1) + Slept(a + 1) && sends <= 5 * (n - 1) + a
    case Failed => n >= 1 && now >= base + RoundsMs(n) && sends <= 5 * n
    case Replying(_) => false
    case Replied => false
  }

  /** The deliveries of a message that were not turned away by the pause flag. */
  function Rounds(t: Tally): int {
    t.deliveries - t.pauses
  }

  /** The account of one message: its place, the stage of the handler that holds it, its tally. */
  ghost predicate Balanced(place: Place, stage: Option<Stage>, m: Message, t: Tally, now: nat) {
    var n := Rounds(t);
    && n >= 0
    && (n >= 1 ==> m.routedAt + RoundsMs(n - 1) < m.expiry)
    && match place
       case InQueue(_) => now >= m.routedAt + RoundsMs(n) && t.sends <= 5 * n
       case HeldBy(_) => stage.Some? && StagePaced(stage.value, n, t.sends, m.routedAt, now)
       case Acked => false
       case Expired => t.sends <= 5 * n
  }

  ghost function StageOf(s: State, place: Place, c: Cid): Option<Stage> {
    if place.HeldBy? && place.tag in s.handlers && s.handlers[place.tag].cid == c
    then Some(s.handlers[place.tag].stage) else None
  }

  ghost predicate Paced(s: State, c: Cid)
    requires c in s.broker.messages
  {
    && c in s.ledger.place
    && Balanced(s.ledger.place[c], StageOf(s, s.ledger.place[c], c), s.broker.messages[c], TallyOf(s, c), s.now)
  }

  /** Without channel loss every handler still owns its delivery. */
  ghost predicate HandlersOwn(s: State) {
    && (forall t :: t in s.broker.unacked ==> s.broker.unacked[t].epoch == s.broker.epoch)
    && (forall t :: t in s.handlers ==> Settleable(s.broker, t))
  }

  ghost predicate WorkInv(s: State) {
    && HandlersOwn(s)
    && (forall c :: c in s.ledger.tally ==> c in s.broker.messages)
    && forall c :: c in s.broker.messages ==> Paced(s, c)
  }

  /** The message an event is about. */
  function Subject(s: State, e: Event): Option<Cid> {
    match e
    case OfBroker(Accept(c)) => Some(c)
    case OfBroker(Expire(c)) => Some(c)
    case OfBroker(Deliver(c)) => Some(c)
    case OfWorker(w) => if w.tag in s.handlers then Some(s.handlers[w.tag].cid) else None
    case _ => None
  }

  /** Nothing about a message changes but the clock. */
  ghost predicate Untouched(s: State, s': State, c: Cid) {
    && s'.now >= s.now
    && (c in s'.broker.messages <==> c in s.broker.messages)
    && (c in s.broker.messages ==>
          && s'.broker.messages[c] == s.broker.messages[c] && TallyOf(s', c) == TallyOf(s, c)
          && c in s.ledger.place && c in s'.ledger.place && s'.ledger.place[c] == s.ledger.place[c]
          && (s.ledger.place[c].HeldBy? ==>
                var t := s.ledger.place[c].tag;
                (t in s.handlers <==> t in s'.handlers) && (t in s.handlers ==> s'.handlers[t] == s.handlers[t])))
  }

  lemma UntouchedStaysPaced(s: State, s': State, c: Cid)
    requires c in s.broker.messages && Paced(s, c) && Untouched(s, s', c)
    ensures Paced(s', c)
  {
  }

  // ---------------------------------------------------------------- broker events

  lemma BrokerEventTouchesSubject(p: Params, s: State, e: BrokerEvent, d: Cid)
    requires s.ledger.place.Keys == s.broker.messages.Keys && HandlersAgree(s) && HandlersOwn(s)
    requires BrokerEnabled(s, e) && !e.ChannelLoss? && Subject(s, OfBroker(e)) != Some(d)
    requires d in s.ledger.place && s.ledger.place[d].HeldBy? ==> s.ledger.place[d].tag < s.broker.nextTag
    ensures Untouched(s, ApplyBroker(p, s, e), d)
  {
    hide AcceptMessage;
    hide HandlersAgree;
    if e.Accept? {
      AcceptRoutes(p, s, e.cid);
    } else if e.Deliver? {
      assert s.broker.nextTag !in s.handlers by { NextTagIsFree(s); }
    }
  }

  lemma NextTagIsFree(s: State)
    requires HandlersAgree(s)
    ensures s.broker.nextTag !in s.handlers
  {
  }

  lemma BrokerEventKeepsOwn(p: Params, s: State, e: BrokerEvent)
    requires HandlersAgree(s) && HandlersOwn(s) && s.broker.messages.Keys <= s.broker.accepted
    requires BrokerEnabled(s, e) && !e.ChannelLoss?
    ensures HandlersOwn(ApplyBroker(p, s, e))
  {
    hide AcceptMessage;
    if e.Accept? {
      AcceptRoutes(p, s, e.cid);
    } else if e.Deliver? {
      NextTagIsFree(s);
    }
  }

  lemma AcceptPaced(p: Params, s: State, c: Cid)
    requires BrokerEnabled(s, Accept(c))
    ensures var s' := AcceptMessage(p, s, c);
      c in s'.broker.messages && c !in s.broker.messages ==> Paced(s', c)
  {
    AcceptRoutes(p, s, c);
    hide AcceptMessage;
  }

  lemma DeliveryBalanced(q: QueueId, tag: Tag, m: Message, t: Tally, now: nat)
    requires Balanced(InQueue(q), None, m, t, now) && now < m.expiry
    ensures Balanced(HeldBy(tag), Some(Queued), m, t.(deliveries := t.deliveries + 1), now)
  {
  }

  lemma ExpiryBalanced(q: QueueId, m: Message, t: Tally, now: nat)
    requires Balanced(InQueue(q), None, m, t, now)
    ensures Balanced(Expired, None, m, t, now)
  {
  }

  lemma BrokerEventPaces(p: Params, s: State, e: BrokerEvent)
    requires BrokerInv(s) && WorkInv(s) && BrokerEnabled(s, e) && !e.ChannelLoss?
    ensures WorkInv(ApplyBroker(p, s, e))
  {
    hide Paced;
    hide AcceptMessage;
    var s' := ApplyBroker(p, s, e);
    BrokerEventKeepsOwn(p, s, e);
    forall d ensures d in s'.broker.messages ==> Paced(s', d) {
      if Subject(s, OfBroker(e)) != Some(d) {
        BrokerEventTouchesSubject(p, s, e, d);
        if d in s.broker.messages { UntouchedStaysPaced(s, s', d); }
      } else {
        BrokerSubjectPaced(p, s, e, d);
      }
    }
    assert forall c :: c in s'.ledger.tally ==> c in s'.broker.messages by {
      if e.Accept? { AcceptRoutes(p, s, e.cid); }
    }
  }

  lemma ReadyIsInQueue(s: State, c: Cid)
    requires BrokerInv(s) && IsReady(s.broker, c)
    ensures c in s.ledger.place && s.ledger.place[c] == InQueue(s.broker.messages[c].queue)
    ensures StageOf(s, s.ledger.place[c], c) == None
  {
  }

  lemma ExpirePaced(s: State, c: Cid)
    requires BrokerInv(s) && c in s.broker.messages && Paced(s, c) && IsReady(s.broker, c)
    ensures c in ExpireMessage(s, c).broker.messages && Paced(ExpireMessage(s, c), c)
  {
    var m := s.broker.messages[c];
    ReadyIsInQueue(s, c);
    ExpiryBalanced(m.queue, m, TallyOf(s, c), s.now);
    hide Balanced;
    hide BrokerInv;
  }

  /** What a delivery does to the account of its message. */
  lemma DeliveryAccount(s: State, c: Cid)
    requires c in s.broker.messages
    ensures var s', t := DeliverMessage(s, c), s.broker.nextTag;
      && s'.now == s.now && s'.broker.messages == s.broker.messages
      && s'.ledger.place == s.ledger.place[c := HeldBy(t)]
      && StageOf(s', HeldBy(t), c) == Some(Queued)
      && TallyOf(s', c) == TallyOf(s, c).(deliveries := TallyOf(s, c).deliveries + 1)
  {
  }

  lemma DeliverPaced(s: State, c: Cid)
    requires BrokerInv(s) && c in s.broker.messages && Paced(s, c) && BrokerEnabled(s, Deliver(c))
    ensures c in DeliverMessage(s, c).broker.messages && Paced(DeliverMessage(s, c), c)
  {
    hide DeliverMessage;
    hide Balanced;
    hide BrokerInv;
    hide StageOf;
    hide TallyOf;
    var m := s.broker.messages[c];
    ReadyIsInQueue(s, c);
    DeliveryBalanced(m.queue, s.broker.nextTag, m, TallyOf(s, c), s.now);
    DeliveryAccount(s, c);
  }

  lemma BrokerSubjectPaced(p: Params, s: State, e: BrokerEvent, c: Cid)
    requires BrokerInv(s) && WorkInv(s) && BrokerEnabled(s, e) && Subject(s, OfBroker(e)) == Some(c)
    ensures c in ApplyBroker(p, s, e).broker.messages ==> Paced(ApplyBroker(p, s, e), c)
  {
    if e.Accept? {
      AcceptPaced(p, s, c);
    } else {
      assert Paced(s, c);
      hide Paced;
      if e.Expire? {
        ExpirePaced(s, c);
      } else {
        DeliverPaced(s, c);
      }
      hide ApplyBroker;
    }
  }

  // ---------------------------------------------------------------- worker events

  /** What a worker event does to the account of its message. */
  lemma WorkerEffect(s: State, e: WorkerEvent)
    requires WorkerEnabled(s, e) && Settleable(s.broker, e.tag) && KeepsFailing(OfWorker(e))
    requires s.broker.unacked[e.tag].cid == s.handlers[e.tag].cid
    requires !s.handlers[e.tag].stage.Replying? && !s.handlers[e.tag].stage.Replied?
    ensures var s', h, c := ApplyWorker(s, e), s.handlers[e.tag], s.handlers[e.tag].cid;
      var t, t' := TallyOf(s, c), TallyOf(s', c);
      if e.Nack? then
        t' == t && s'.ledger.place == s.ledger.place[c := InQueue(s.broker.messages[c].queue)]
      else
        && s'.ledger.place == s.ledger.place && e.tag in s'.handlers
        && s'.handlers[e.tag].cid == c
        && StageFollows(s, e, h.stage, t, s'.handlers[e.tag].stage, t')
  {
  }

  ghost predicate StageFollows(s: State, e: WorkerEvent, g: Stage, t: Tally, g': Stage, t': Tally) {
    match e
    case TakePermit(_) => g.Queued? && g' == Admitted && t' == t
    case Start(_, _) =>
      g.Admitted?
      && ((g' == Paused && t' == t.(pauses := t.pauses + 1))
          || (g' == Sending(1, Retry.FIRST_DELAY) && t' == t.(sends := t.sends + 1)))
    case Respond(_, _) =>
      g.Sending? && t' == t
      && g' == if g.attempt == Retry.MAX_RETRIES then Failed else Sleeping(g.attempt, g.delay, s.now + g.delay)
    case Wake(_) =>
      g.Sleeping? && s.now >= g.until
      && g' == Sending(g.attempt + 1, g.delay * Retry.FACTOR) && t' == t.(sends := t.sends + 1)
    case _ => false
  }

  lemma StageStaysPaced(s: State, e: WorkerEvent, g: Stage, t: Tally, g': Stage, t': Tally, tag: Tag, m: Message)
    requires StageFollows(s, e, g, t, g', t')
    requires Balanced(HeldBy(tag), Some(g), m, t, s.now)
    ensures Balanced(HeldBy(tag), Some(g'), m, t', s.now)
  {
    SleptTable();
  }

  lemma NackBalanced(g: Stage, t: Tally, tag: Tag, q: QueueId, m: Message, now: nat)
    requires Balanced(HeldBy(tag), Some(g), m, t, now) && (g.Paused? || g.Failed?)
    ensures Balanced(InQueue(q), None, m, t, now)
  {
  }

  lemma HolderStage(s: State, tag: Tag)
    requires BrokerInv(s) && WorkInv(s) && tag in s.handlers
    ensures var c := s.handlers[tag].cid;
      && c in s.broker.messages && c in s.ledger.place && s.ledger.place[c] == HeldBy(tag)
      && s.broker.unacked[tag].cid == c
      && Balanced(HeldBy(tag), Some(s.handlers[tag].stage), s.broker.messages[c], TallyOf(s, c), s.now)
  {
    hide Balanced;
    hide TallyOf;
    assert HandlerAgrees(s, tag);
    assert Paced(s, s.handlers[tag].cid);
  }

  lemma HeldIsPaced(s: State, c: Cid, tag: Tag)
    requires c in s.broker.messages && c in s.ledger.place && s.ledger.place[c] == HeldBy(tag)
    requires tag in s.handlers && s.handlers[tag].cid == c
    requires Balanced(HeldBy(tag), Some(s.handlers[tag].stage), s.broker.messages[c], TallyOf(s, c), s.now)
    ensures Paced(s, c)
  {
    hide Balanced;
    hide TallyOf;
  }

  lemma WorkerSubjectPaced(s: State, e: WorkerEvent)
    requires BrokerInv(s) && WorkInv(s) && WorkerEnabled(s, e) && KeepsFailing(OfWorker(e))
    ensures var s', c := ApplyWorker(s, e), s.handlers[e.tag].cid;
      c in s'.broker.messages && Paced(s', c)
  {
    hide ApplyWorker;
    hide Balanced;
    hide TallyOf;
    hide Settleable;
    hide BrokerInv;
    hide WorkInv;
    hide StageFollows;
    var s', h := ApplyWorker(s, e), s.handlers[e.tag];
    HolderStage(s, e.tag);
    HolderOwns(s, e.tag);
    WorkerEffect(s, e);
    WorkerKeepsBase(s, e);
    var m, t, t' := s.broker.messages[h.cid], TallyOf(s, h.cid), TallyOf(s', h.cid);
    if e.Nack? {
      NackBalanced(h.stage, t, e.tag, m.queue, m, s.now);
    } else {
      StageStaysPaced(s, e, h.stage, t, s'.handlers[e.tag].stage, t', e.tag, m);
      HeldIsPaced(s', h.cid, e.tag);
    }
  }

  lemma NeverReplying(tag: Tag, g: Stage, m: Message, t: Tally, now: nat)
    requires Balanced(HeldBy(tag), Some(g), m, t, now)
    ensures !g.Replying? && !g.Replied?
  {
  }

  lemma HolderOwns(s: State, tag: Tag)
    requires BrokerInv(s) && WorkInv(s) && tag in s.handlers
    ensures Settleable(s.broker, tag)
    ensures !s.handlers[tag].stage.Replying? && !s.handlers[tag].stage.Replied?
  {
    HolderStage(s, tag);
    hide Balanced;
    hide BrokerInv;
    hide TallyOf;
    var c := s.handlers[tag].cid;
    NeverReplying(tag, s.handlers[tag].stage, s.broker.messages[c], TallyOf(s, c), s.now);
  }

  lemma WorkerKeepsBase(s: State, e: WorkerEvent)
    requires WorkerEnabled(s, e)
    ensures ApplyWorker(s, e).now == s.now && ApplyWorker(s, e).broker.messages == s.broker.messages
    ensures forall t :: t != e.tag ==> (t in s.handlers <==> t in ApplyWorker(s, e).handlers)
    ensures forall t :: t != e.tag && t in s.handlers ==> ApplyWorker(s, e).handlers[t] == s.handlers[t]
  {
    WorkerStepMessages(s, e);
    WorkerFrame(s, e);
    hide ApplyWorker;
  }

  lemma FinishKeepsLedger(s: State, tag: Tag)
    requires tag in s.handlers
    ensures Finish(s, tag).ledger == s.ledger
  {
  }

  lemma EndLedger(s: State, e: WorkerEvent, d: Cid)
    requires WorkerEnabled(s, e) && Ends(e)
    requires e.tag in s.broker.unacked ==> s.broker.unacked[e.tag].cid != d
    ensures var s' := ApplyWorker(s, e);
      && (d in s'.ledger.place <==> d in s.ledger.place)
      && (d in s.ledger.place ==> s'.ledger.place[d] == s.ledger.place[d])
      && s'.ledger.tally == s.ledger.tally
  {
    hide Finish;
    match e
    case Ack(tag) => FinishKeepsLedger(if Settleable(s.broker, tag) then Acknowledge(s, tag) else s, tag);
    case Nack(tag) => FinishKeepsLedger(if Settleable(s.broker, tag) then Requeue(s, tag) else s, tag);
    case PublishReplyFails(tag, sent) =>
      FinishKeepsLedger(if sent then Publish(s, s.handlers[tag].stage.reply) else s, tag);
  }

  lemma WorkerLedger(s: State, e: WorkerEvent, d: Cid)
    requires WorkerEnabled(s, e) && d != s.handlers[e.tag].cid
    requires e.tag in s.broker.unacked ==> s.broker.unacked[e.tag].cid != d
    ensures var s' := ApplyWorker(s, e);
      && (d in s'.ledger.place <==> d in s.ledger.place)
      && (d in s.ledger.place ==> s'.ledger.place[d] == s.ledger.place[d])
      && TallyOf(s', d) == TallyOf(s, d)
  {
    if Ends(e) {
      EndLedger(s, e, d);
      hide ApplyWorker;
    } else {
      hide Settleable;
      assert ApplyWorker(s, e).ledger.place == s.ledger.place;
    }
  }

  lemma WorkerEventTouchesSubject(s: State, e: WorkerEvent, d: Cid)
    requires BrokerInv(s) && WorkerEnabled(s, e) && d != s.handlers[e.tag].cid
    ensures Untouched(s, ApplyWorker(s, e), d)
  {
    hide ApplyWorker;
    hide TallyOf;
    assert HandlerAgrees(s, e.tag);
    assert d in s.ledger.place ==> s.ledger.place[d] != HeldBy(e.tag);
    assert s.ledger.place.Keys == s.broker.messages.Keys;
    WorkerLedger(s, e, d);
    WorkerKeepsBase(s, e);
  }

  lemma WorkerEventKeepsOwn(s: State, e: WorkerEvent)
    requires BrokerInv(s) && HandlersOwn(s) && WorkerEnabled(s, e)
    ensures HandlersOwn(ApplyWorker(s, e))
  {
    hide PlacesAgree;
    if Ends(e) {
      WorkerEnds(s, e);
      WorkerFrame(s, e);
      WorkerStepGrows(s, e);
    } else {
      WorkerGoesOn(s, e);
    }
    hide ApplyWorker;
  }

  lemma WorkerTallies(s: State, e: WorkerEvent)
    requires WorkerEnabled(s, e)
    ensures ApplyWorker(s, e).ledger.tally.Keys <= s.ledger.tally.Keys + {s.handlers[e.tag].cid}
  {
  }

  lemma WorkerEventPaces(s: State, e: WorkerEvent)
    requires BrokerInv(s) && WorkInv(s) && WorkerEnabled(s, e) && KeepsFailing(OfWorker(e))
    ensures WorkInv(ApplyWorker(s, e))
  {
    hide ApplyWorker;
    hide Paced;
    hide PlacesAgree;
    var s' := ApplyWorker(s, e);
    WorkerEventKeepsOwn(s, e);
    WorkerKeepsBase(s, e);
    WorkerTallies(s, e);
    assert HandlerAgrees(s, e.tag);
    forall d | d in s'.broker.messages ensures Paced(s', d) {
      if d == s.handlers[e.tag].cid {
        WorkerSubjectPaced(s, e);
      } else {
        WorkerEventTouchesSubject(s, e, d);
        UntouchedStaysPaced(s, s', d);
      }
    }
  }

  // ---------------------------------------------------------------- every event

  lemma QuietEventPaces(s: State, s': State)
    requires BrokerInv(s) && WorkInv(s)
    requires s'.broker == s.broker && s'.ledger == s.ledger && s'.handlers == s.handlers && s'.now >= s.now
    ensures WorkInv(s')
  {
    hide Paced;
    assert s.ledger.place.Keys == s.broker.messages.Keys;
    hide PlacesAgree;
    forall d | d in s'.broker.messages ensures Paced(s', d) {
      UntouchedStaysPaced(s, s', d);
    }
  }

  lemma StepPaces(p: Params, s: State, e: Event)
    requires BrokerInv(s) && WorkInv(s) && Enabled(s, e) && KeepsFailing(e)
    ensures WorkInv(Apply(p, s, e))
  {
    hide WorkInv;
    hide BrokerInv;
    hide ApplyRouter;
    hide ApplyBroker;
    hide ApplyWorker;
    match e
    case OfRouter(r) =>
      RouterFrame(s, r);
      QuietEventPaces(s, Apply(p, s, e));
    case OfBroker(b) => BrokerEventPaces(p, s, b);
    case OfWorker(w) => WorkerEventPaces(s, w);
    case OfWorld(x) =>
      WorldFrame(s, x);
      QuietEventPaces(s, Apply(p, s, e));
  }

  lemma {:induction false} RunPaces(p: Params, s: State, es: seq<Event>)
    requires Inv(p, s) && WorkInv(s) && IsRun(p, s, es) && AllKeepFailing(es)
    ensures WorkInv(Exec(p, s, es)) && Inv(p, Exec(p, s, es))
    decreases |es|
  {
    hide WorkInv;
    hide Apply;
    if es != [] {
      assert KeepsFailing(es[0]);
      StepPaces(p, s, es[0]) by { assert BrokerInv(s); }
      StepKeepsInv(p, s, es[0]);
      hide Inv;
      RunPaces(p, Apply(p, s, es[0]), es[1..]);
    }
  }

  function CeilDiv(a: nat, b: nat): (q: nat)
    requires b > 0
    ensures q * b >= a && (q > 0 ==> (q - 1) * b < a)
  {
    (a + b - 1) / b
  }

  /** Main result: with a deadline of `D` seconds and a target that keeps failing in the retryable
      way, a message is sent at most `5 * ceil(D / 15)` times and delivered at most `ceil(D / 15)`
      times, not counting deliveries the pause flag turned away (`D` in the broker's reading). */
  lemma BoundedWork(p: Params, es: seq<Event>, c: Cid)
    requires IsRun(p, Init(p), es) && AllKeepFailing(es)
    requires c in Reached(p, es).broker.messages
    ensures var s := Reached(p, es);
      c in s.requests &&
      var bound := CeilDiv(s.requests[c].deadlineSec * p.ttlUnit, 15);
      TallyOf(s, c).deliveries - TallyOf(s, c).pauses <= bound && TallyOf(s, c).sends <= 5 * bound
  {
    hide Inv;
    hide BrokerInv;
    hide Balanced;
    hide TallyOf;
    hide StageOf;
    InitHolds(p);
    RunPaces(p, Init(p), es) by { EmptyIsPaced(p); }
    var s := Reached(p, es);
    assert Paced(s, c);
    hide WorkInv;
    ExpiryInSeconds(p, s, c);
    RoundsBound(s.ledger.place[c], StageOf(s, s.ledger.place[c], c), s.broker.messages[c], TallyOf(s, c), s.now,
                s.requests[c].deadlineSec * p.ttlUnit);
  }

  lemma EmptyIsPaced(p: Params)
    ensures WorkInv(Init(p))
  {
  }

  lemma ExpiryInSeconds(p: Params, s: State, c: Cid)
    requires Inv(p, s) && c in s.broker.messages
    ensures c in s.requests
    ensures s.broker.messages[c].expiry
      == s.broker.messages[c].routedAt + 1000 * (s.requests[c].deadlineSec * p.ttlUnit)
  {
    assert MessageTimely(p, s, c);
    hide Inv;
    InSeconds(s.requests[c].deadlineSec, p.ttlUnit);
  }

  lemma InSeconds(d: nat, unit: nat)
    ensures d * 1000 * unit == 1000 * (d * unit)
  {
  }

  lemma RoundsBound(place: Place, stage: Option<Stage>, m: Message, t: Tally, now: nat, seconds: nat)
    requires Balanced(place, stage, m, t, now) && m.expiry == m.routedAt + 1000 * seconds
    ensures Rounds(t) <= CeilDiv(seconds, 15) && t.sends <= 5 * CeilDiv(seconds, 15)
  {
    var n := Rounds(t);
    assert n >= 1 ==> 15 * (n - 1) < seconds;
    assert t.sends <= 5 * n;
  }

  // ---------------------------------------------------------------- pauses

  /** Only messages of the pausable queues are ever turned away. */
  ghost predicate OnlyBufferedPause(s: State) {
    forall c :: c in s.ledger.tally && s.ledger.tally[c].pauses > 0 ==>
      c in s.broker.messages && s.broker.messages[c].queue.qType.Buffered?
  }

  lemma WorkerPauses(s: State, e: WorkerEvent)
    requires WorkerEnabled(s, e)
    ensures var s', c := ApplyWorker(s, e), s.handlers[e.tag].cid;
      forall d :: d in s'.ledger.tally && s'.ledger.tally[d].pauses > 0 ==>
        (d in s.ledger.tally && s.ledger.tally[d].pauses > 0) || (d == c && s.handlers[e.tag].queue.qType.Buffered?)
  {
  }

  lemma BrokerPauses(p: Params, s: State, e: BrokerEvent)
    requires BrokerEnabled(s, e)
    ensures var s' := ApplyBroker(p, s, e);
      forall d :: d in s'.ledger.tally && s'.ledger.tally[d].pauses > 0 ==>
        d in s.ledger.tally && s.ledger.tally[d].pauses > 0
  {
    hide AcceptMessage;
    if e.Accept? { AcceptRoutes(p, s, e.cid); }
  }

  lemma StepPauses(p: Params, s: State, e: Event)
    requires BrokerInv(s) && OnlyBufferedPause(s) && Enabled(s, e)
    ensures OnlyBufferedPause(Apply(p, s, e))
  {
    StepGrows(p, s, e);
    hide PlacesAgree;
    hide ApplyRouter;
    hide ApplyBroker;
    hide ApplyWorker;
    match e
    case OfRouter(r) => RouterFrame(s, r);
    case OfBroker(b) => BrokerPauses(p, s, b);
    case OfWorker(w) =>
      assert HandlerAgrees(s, w.tag);
      WorkerPauses(s, w);
    case OfWorld(x) => WorldFrame(s, x);
  }

  lemma {:induction false} RunPauses(p: Params, s: State, es: seq<Event>)
    requires Inv(p, s) && OnlyBufferedPause(s) && IsRun(p, s, es)
    ensures OnlyBufferedPause(Exec(p, s, es))
    decreases |es|
  {
    hide OnlyBufferedPause;
    hide Apply;
    if es != [] {
      StepPauses(p, s, es[0]) by { assert BrokerInv(s); }
      StepKeepsInv(p, s, es[0]);
      hide Inv;
      RunPauses(p, Apply(p, s, es[0]), es[1..]);
    }
  }

  /** A message that was never turned away, as every message of a direct queue, is delivered at most
      `ceil(D / 15)` times. */
  lemma BoundedDeliveries(p: Params, es: seq<Event>, c: Cid)
    requires IsRun(p, Init(p), es) && AllKeepFailing(es)
    requires c in Reached(p, es).broker.messages
    requires Reached(p, es).broker.messages[c].queue.qType.Direct?
    ensures c in Reached(p, es).requests
    ensures TallyOf(Reached(p, es), c).deliveries <= CeilDiv(Reached(p, es).requests[c].deadlineSec * p.ttlUnit, 15)
  {
    BoundedWork(p, es, c);
    InitHolds(p);
    RunPauses(p, Init(p), es);
  }
}
