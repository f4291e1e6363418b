/** What a requester can be answered with, and what becomes of a delivery whose reply could not be
    published. */
module ProtocolReplies {
  import opened PendingTable
  import opened Protocol
  import opened ProtocolSafety
  import opened ProtocolRuns

  // ---------------------------------------------------------------- genuine answers

  /** Not one of the failures that are retried. */
  predicate Genuine(r: Reply) {
    r.status !in {500, 502, 503, 504}
  }

  ghost predicate StageGenuine(g: Stage) {
    g.Replying? ==> Genuine(g.reply)
  }

  ghost predicate GenuineReplies(s: State) {
    && (forall r :: r in s.ledger.published ==> Genuine(r))
    && (forall t :: t in s.handlers ==> StageGenuine(s.handlers[t].stage))
  }

  lemma WorkerIsGenuine(s: State, e: WorkerEvent)
    requires WorkerEnabled(s, e) && StageGenuine(s.handlers[e.tag].stage)
    ensures var s' := ApplyWorker(s, e);
      && (e.tag in s'.handlers ==> StageGenuine(s'.handlers[e.tag].stage))
      && (forall r :: r in s'.ledger.published ==> r in s.ledger.published || Genuine(r))
  {
    hide Settleable;
  }

  lemma StepKeepsGenuine(p: Params, s: State, e: Event)
    requires GenuineReplies(s) && Enabled(s, e)
    ensures GenuineReplies(Apply(p, s, e))
  {
    hide ApplyRouter;
    hide ApplyBroker;
    hide ApplyWorker;
    match e
    case OfRouter(r) => RouterFrame(s, r);
    case OfBroker(b) => BrokerFrame(p, s, b);
    case OfWorker(w) =>
      WorkerIsGenuine(s, w);
      WorkerFrame(s, w);
    case OfWorld(x) => WorldFrame(s, x);
  }

  lemma {:induction false} RunKeepsGenuine(p: Params, s: State, es: seq<Event>)
    requires GenuineReplies(s) && IsRun(p, s, es)
    ensures GenuineReplies(Exec(p, s, es))
    decreases |es|
  {
    hide Apply;
    hide Enabled;
    hide GenuineReplies;
    if es != [] {
      StepKeepsGenuine(p, s, es[0]);
      RunKeepsGenuine(p, Apply(p, s, es[0]), es[1..]);
    }
  }

  /** Main result: no requester is ever answered with a failure that is retried; it gets a genuine
      answer of the target or none. */
  lemma AnswersAreGenuine(p: Params, es: seq<Event>, c: Cid)
    requires IsRun(p, Init(p), es)
    ensures var s := Reached(p, es);
      && (forall r :: r in s.ledger.published ==> Genuine(r))
      && (c in s.requests && s.requests[c].phase.Answered? ==> Genuine(s.requests[c].phase.reply))
  {
    RunKeepsGenuine(p, Init(p), es);
    AnswerIsItsOwn(p, es, c);
  }

  // ---------------------------------------------------------------- unattended deliveries

  /** Delivered, and nobody is going to ack or nack it. */
  predicate Unattended(s: State, t: Tag) {
    Current(s.broker, t) && t !in s.handlers
  }

  /** The handler whose reply publish raises in this event. */
  function FailedBy(e: Event): set<Tag> {
    if e.OfWorker? && e.worker.PublishReplyFails? then {e.worker.tag} else {}
  }

  function FailedTags(es: seq<Event>): set<Tag> {
    if es == [] then {} else FailedBy(es[0]) + FailedTags(es[1..])
  }

  ghost predicate Attended(s: State, failed: set<Tag>) {
    AttendedBy(s.broker, s.handlers.Keys, failed)
  }

  ghost predicate AttendedBy(b: Broker, handlers: set<Tag>, failed: set<Tag>) {
    && (forall t :: t in b.unacked ==> b.unacked[t].epoch <= b.epoch)
    && (forall t :: Current(b, t) ==> (t in handlers <==> t !in failed))
    && (forall t :: t in failed ==> t < b.nextTag && t !in handlers)
  }

  /** A handler ends: either its delivery is settled, or its reply publish raised, or the delivery was
      of an earlier channel. */
  lemma EndKeepsAttended(b: Broker, b': Broker, handlers: set<Tag>, failed: set<Tag>, tag: Tag, raised: bool)
    requires AttendedBy(b, handlers, failed) && tag in handlers && tag < b.nextTag
    requires b'.nextTag == b.nextTag && b'.epoch == b.epoch
    requires b'.unacked == if Current(b, tag) && !raised then b.unacked - {tag} else b.unacked
    ensures AttendedBy(b', handlers - {tag}, failed + if raised then {tag} else {})
  {
  }

  lemma BrokerKeepsAttended(p: Params, s: State, e: BrokerEvent, failed: set<Tag>)
    requires BrokerInv(s) && Attended(s, failed) && BrokerEnabled(s, e)
    ensures Attended(ApplyBroker(p, s, e), failed)
  {
    hide PlacesAgree;
    hide AcceptMessage;
    if e.Accept? { AcceptRoutes(p, s, e.cid); }
  }

  lemma WorkerKeepsAttended(s: State, e: WorkerEvent, failed: set<Tag>)
    requires BrokerInv(s) && Attended(s, failed) && WorkerEnabled(s, e)
    ensures Attended(ApplyWorker(s, e), failed + FailedBy(OfWorker(e)))
  {
    assert HandlerAgrees(s, e.tag);
    hide PlacesAgree;
    hide HandlersAgree;
    var s' := ApplyWorker(s, e);
    if Ends(e) {
      WorkerEnds(s, e);
      hide AttendedBy;
      hide ApplyWorker;
      EndKeepsAttended(s.broker, s'.broker, s.handlers.Keys, failed, e.tag, e.PublishReplyFails?);
      assert s'.handlers.Keys == s.handlers.Keys - {e.tag};
    } else {
      WorkerGoesOn(s, e);
      hide ApplyWorker;
      assert failed + {} == failed;
    }
  }

  lemma StepKeepsAttended(p: Params, s: State, e: Event, failed: set<Tag>)
    requires BrokerInv(s) && Attended(s, failed) && Enabled(s, e)
    ensures Attended(Apply(p, s, e), failed + FailedBy(e))
  {
    hide PlacesAgree;
    hide ApplyRouter;
    hide ApplyBroker;
    hide ApplyWorker;
    assert !e.OfWorker? ==> failed + FailedBy(e) == failed;
    match e
    case OfRouter(r) => RouterFrame(s, r);
    case OfBroker(b) => BrokerKeepsAttended(p, s, b, failed);
    case OfWorker(w) => WorkerKeepsAttended(s, w, failed);
    case OfWorld(x) => WorldFrame(s, x);
  }

  lemma {:induction false} RunKeepsAttended(p: Params, s: State, es: seq<Event>, failed: set<Tag>)
    requires Inv(p, s) && Attended(s, failed) && IsRun(p, s, es)
    ensures Attended(Exec(p, s, es), failed + FailedTags(es))
    decreases |es|
  {
    hide Apply;
    hide Enabled;
    hide Attended;
    if es == [] {
      assert failed + {} == failed;
    } else {
      StepKeepsAttended(p, s, es[0], failed) by { assert BrokerInv(s); }
      StepKeepsInv(p, s, es[0]);
      hide Inv;
      RunKeepsAttended(p, Apply(p, s, es[0]), es[1..], failed + FailedBy(es[0]));
      assert failed + FailedBy(es[0]) + FailedTags(es[1..]) == failed + FailedTags(es);
    }
  }

  /** Main result: after any run, a delivery on the current channel has no handler exactly if the
      publish of its reply raised. */
  lemma UnattendedExactly(p: Params, es: seq<Event>, t: Tag)
    requires IsRun(p, Init(p), es)
    requires Current(Reached(p, es).broker, t)
    ensures Unattended(Reached(p, es), t) <==> t in FailedTags(es)
  {
    InitHolds(p);
    RunKeepsAttended(p, Init(p), es, {});
    hide Inv;
    assert {} + FailedTags(es) == FailedTags(es);
  }

  lemma UnattendedStep(p: Params, s: State, e: Event, t: Tag)
    requires BrokerInv(s) && Enabled(s, e) && Unattended(s, t) && e != OfBroker(ChannelLoss)
    ensures Unattended(Apply(p, s, e), t)
    ensures Apply(p, s, e).broker.unacked[t] == s.broker.unacked[t]
  {
    assert t < s.broker.nextTag;
    hide ApplyRouter;
    match e
    case OfRouter(r) => RouterFrame(s, r);
    case OfBroker(b) => BrokerLeavesUnattended(p, s, b, t);
    case OfWorker(w) =>
      if Ends(w) {
        WorkerEnds(s, w);
      } else {
        WorkerGoesOn(s, w);
      }
      hide ApplyWorker;
    case OfWorld(x) =>
  }

  lemma BrokerLeavesUnattended(p: Params, s: State, e: BrokerEvent, t: Tag)
    requires BrokerEnabled(s, e) && Unattended(s, t) && t < s.broker.nextTag && !e.ChannelLoss?
    ensures Unattended(ApplyBroker(p, s, e), t)
    ensures ApplyBroker(p, s, e).broker.unacked[t] == s.broker.unacked[t]
  {
    hide AcceptMessage;
    if e.Accept? { AcceptRoutes(p, s, e.cid); }
  }

  /** Main result: such a delivery stays with nobody until the channel is lost; in every run without
      channel loss its message is never delivered again, acknowledged or expired. */
  lemma {:induction false} UnattendedUntilChannelLoss(p: Params, s: State, es: seq<Event>, t: Tag)
    requires Inv(p, s) && IsRun(p, s, es) && Unattended(s, t) && OfBroker(ChannelLoss) !in es
    ensures var b, c := Exec(p, s, es).broker, s.broker.unacked[t].cid;
      && Unattended(Exec(p, s, es), t) && b.unacked[t].cid == c
      && c !in b.acked && c !in b.expired
    ensures OfBroker(Deliver(s.broker.unacked[t].cid)) !in es
    decreases |es|
  {
    var c := s.broker.unacked[t].cid;
    UnattendedIsHeld(s, t);
    hide Apply;
    hide Enabled;
    if es != [] {
      assert es == [es[0]] + es[1..];
      var s' := Apply(p, s, es[0]);
      UnattendedStep(p, s, es[0], t);
      StepKeepsInv(p, s, es[0]);
      assert es[0] != OfBroker(Deliver(c)) by { UnattendedBlocksDelivery(s, es[0], t); }
      hide Inv;
      UnattendedUntilChannelLoss(p, s', es[1..], t);
    }
  }

  lemma UnattendedIsHeld(s: State, t: Tag)
    requires BrokerInv(s) && Unattended(s, t)
    ensures var c := s.broker.unacked[t].cid;
      c !in s.broker.acked && c !in s.broker.expired && !IsReady(s.broker, c)
  {
  }

  lemma UnattendedBlocksDelivery(s: State, e: Event, t: Tag)
    requires BrokerInv(s) && Unattended(s, t) && Enabled(s, e)
    ensures e != OfBroker(Deliver(s.broker.unacked[t].cid))
  {
    UnattendedIsHeld(s, t);
    hide BrokerInv;
  }
}
