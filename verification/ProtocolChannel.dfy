/** What holds as long as the channel does: how many replies a message gets, and how often it can still
    be sent to the target once its requester has given up. */
module ProtocolChannel {
  import opened Wrappers
  import opened PendingTable
  import opened Protocol
  import opened ProtocolSafety
  import opened ProtocolRuns
  import opened ProtocolPause
  import opened ProtocolWork
  import Retry

  predicate ChannelHolds(es: seq<Event>) {
    forall i :: 0 <= i < |es| ==> es[i] != OfBroker(ChannelLoss)
  }

  predicate RepliesGoOut(es: seq<Event>) {
    forall i :: 0 <= i < |es| ==> !(es[i].OfWorker? && es[i].worker.PublishReplyFails?)
  }

  lemma StepKeepsOwn(p: Params, s: State, e: Event)
    requires BrokerInv(s) && HandlersOwn(s) && Enabled(s, e) && e != OfBroker(ChannelLoss)
    ensures HandlersOwn(Apply(p, s, e))
  {
    hide ApplyRouter;
    hide ApplyBroker;
    hide ApplyWorker;
    match e
    case OfRouter(r) => RouterFrame(s, r);
    case OfBroker(b) => BrokerEventKeepsOwn(p, s, b);
    case OfWorker(w) => WorkerEventKeepsOwn(s, w);
    case OfWorld(x) => WorldFrame(s, x);
  }

  /** A handler holds the message it works on. */
  lemma HandlerHolds(s: State, tag: Tag)
    requires BrokerInv(s) && HandlersOwn(s) && tag in s.handlers
    ensures var c := s.handlers[tag].cid;
      && c in s.broker.messages && c in s.ledger.place && s.ledger.place[c] == HeldBy(tag)
      && Settleable(s.broker, tag) && s.broker.unacked[tag].cid == c
  {
    assert HandlerAgrees(s, tag);
  }

  // ---------------------------------------------------------------- one reply per message

  /** A message with a published reply is acknowledged, or its handler is about to. */
  ghost predicate IsReplied(s: State, c: Cid) {
    c in s.ledger.place &&
    match s.ledger.place[c]
    case Acked => true
    case HeldBy(t) => t in s.handlers && s.handlers[t].stage.Replied?
    case _ => false
  }

  ghost predicate SingleReplies(s: State) {
    && (forall r :: r in s.ledger.published ==> IsReplied(s, r.correlationId))
    && (forall r, q :: r in s.ledger.published && q in s.ledger.published && r.correlationId == q.correlationId ==>
          r == q)
  }

  lemma UntouchedStaysReplied(s: State, s': State, c: Cid)
    requires Untouched(s, s', c) && c in s.broker.messages && IsReplied(s, c)
    ensures IsReplied(s', c)
  {
  }

  lemma BrokerKeepsReplied(p: Params, s: State, e: BrokerEvent, c: Cid)
    requires BrokerInv(s) && HandlersOwn(s) && BrokerEnabled(s, e) && !e.ChannelLoss?
    requires c in s.broker.messages && IsReplied(s, c)
    ensures IsReplied(ApplyBroker(p, s, e), c)
  {
    ReadyIsNotReplied(s, c);
    hide PlacesAgree;
    hide HandlersOwn;
    hide ApplyBroker;
    assert Subject(s, OfBroker(e)) != Some(c);
    BrokerTouchesOthers(p, s, e, c);
    UntouchedStaysReplied(s, ApplyBroker(p, s, e), c);
  }

  lemma ReadyIsNotReplied(s: State, c: Cid)
    requires BrokerInv(s) && c in s.broker.messages && IsReplied(s, c)
    ensures !IsReady(s.broker, c) && c in s.broker.accepted
  {
  }

  lemma BrokerTouchesOthers(p: Params, s: State, e: BrokerEvent, c: Cid)
    requires BrokerInv(s) && HandlersOwn(s) && BrokerEnabled(s, e) && !e.ChannelLoss?
    requires Subject(s, OfBroker(e)) != Some(c)
    ensures Untouched(s, ApplyBroker(p, s, e), c)
  {
    hide ApplyBroker;
    hide Untouched;
    hide BrokerEnabled;
    BrokerEventTouchesSubject(p, s, e, c);
  }

  /** What a worker event does to the replies to its own message. */
  lemma WorkerReplies(s: State, e: WorkerEvent)
    requires WorkerEnabled(s, e) && Settleable(s.broker, e.tag) && !e.PublishReplyFails?
    requires s.broker.unacked[e.tag].cid == s.handlers[e.tag].cid
    ensures var s', h := ApplyWorker(s, e), s.handlers[e.tag];
      && (h.stage.Replied? ==> e.Ack?)
      && (e.Ack? ==> s'.ledger.place == s.ledger.place[h.cid := Acked])
      && (if e.PublishReply? then
            h.stage.Replying? && s'.ledger.published == s.ledger.published + {h.stage.reply}
            && s'.ledger.place == s.ledger.place && e.tag in s'.handlers && s'.handlers[e.tag].stage.Replied?
          else s'.ledger.published == s.ledger.published)
  {
    if e.Nack? || e.Ack? {
      hide Settleable;
    }
  }

  lemma WorkerKeepsReplied(s: State, e: WorkerEvent, c: Cid)
    requires BrokerInv(s) && HandlersOwn(s) && WorkerEnabled(s, e) && !e.PublishReplyFails?
    requires c in s.broker.messages && IsReplied(s, c)
    ensures IsReplied(ApplyWorker(s, e), c)
  {
    hide ApplyWorker;
    hide HandlersOwn;
    hide BrokerInv;
    hide Settleable;
    HandlerHolds(s, e.tag);
    if c == s.handlers[e.tag].cid {
      WorkerReplies(s, e);
    } else {
      WorkerEventTouchesSubject(s, e, c);
      UntouchedStaysReplied(s, ApplyWorker(s, e), c);
    }
  }

  lemma WorkerKeepsSingle(s: State, e: WorkerEvent)
    requires BrokerInv(s) && HandlersOwn(s) && RepliesTruthful(s) && SingleReplies(s)
    requires WorkerEnabled(s, e) && !e.PublishReplyFails?
    ensures SingleReplies(ApplyWorker(s, e))
  {
    hide ApplyWorker;
    hide HandlersOwn;
    hide BrokerInv;
    hide Settleable;
    var s', h := ApplyWorker(s, e), s.handlers[e.tag];
    HandlerHolds(s, e.tag);
    WorkerReplies(s, e);
    assert StageTruthful(s, h);
    assert h.stage.Replying? ==> !IsReplied(s, h.cid);
    forall r | r in s.ledger.published ensures IsReplied(s', r.correlationId) {
      WorkerKeepsReplied(s, e, r.correlationId);
    }
  }

  lemma StepKeepsSingle(p: Params, s: State, e: Event)
    requires BrokerInv(s) && HandlersOwn(s) && RepliesTruthful(s) && SingleReplies(s) && Enabled(s, e)
    requires e != OfBroker(ChannelLoss) && !(e.OfWorker? && e.worker.PublishReplyFails?)
    ensures SingleReplies(Apply(p, s, e))
  {
    hide ApplyRouter;
    hide ApplyBroker;
    hide ApplyWorker;
    hide BrokerInv;
    hide HandlersOwn;
    match e
    case OfRouter(r) => RouterFrame(s, r);
    case OfBroker(b) =>
      BrokerFrame(p, s, b);
      hide IsReplied;
      forall r | r in s.ledger.published ensures IsReplied(Apply(p, s, e), r.correlationId) {
        BrokerKeepsReplied(p, s, b, r.correlationId);
      }
    case OfWorker(w) => WorkerKeepsSingle(s, w);
    case OfWorld(x) => WorldFrame(s, x);
  }

  lemma {:induction false} RunKeepsSingle(p: Params, s: State, es: seq<Event>)
    requires Inv(p, s) && HandlersOwn(s) && SingleReplies(s) && IsRun(p, s, es) && ChannelHolds(es) && RepliesGoOut(es)
    ensures SingleReplies(Exec(p, s, es))
    decreases |es|
  {
    hide Apply;
    hide Enabled;
    hide SingleReplies;
    hide HandlersOwn;
    hide BrokerInv;
    hide RepliesTruthful;
    if es != [] {
      StepKeepsSingle(p, s, es[0]) by { assert BrokerInv(s) && RepliesTruthful(s); }
      StepKeepsOwn(p, s, es[0]) by { assert BrokerInv(s); }
      StepKeepsInv(p, s, es[0]);
      hide Inv;
      RunKeepsSingle(p, Apply(p, s, es[0]), es[1..]);
    }
  }

  lemma InitIsQuiet(p: Params)
    ensures HandlersOwn(Init(p)) && SingleReplies(Init(p)) && AttemptsBounded(Init(p))
  {
  }

  /** Main result: as long as the channel holds and reply publishes succeed, no message is ever given
      two replies, whatever is retried and redelivered. */
  lemma AtMostOneReply(p: Params, es: seq<Event>, r: Reply, q: Reply)
    requires IsRun(p, Init(p), es) && ChannelHolds(es) && RepliesGoOut(es)
    requires r in Reached(p, es).ledger.published && q in Reached(p, es).ledger.published
    requires r.correlationId == q.correlationId
    ensures r == q
  {
    hide IsRun;
    hide Inv;
    InitHolds(p);
    InitIsQuiet(p);
    RunKeepsSingle(p, Init(p), es);
  }

  // ---------------------------------------------------------------- sends after the requester has given up

  ghost predicate AttemptsBounded(s: State) {
    forall t :: t in s.handlers ==> AttemptBounded(s.handlers[t].stage)
  }

  predicate AttemptBounded(g: Stage) {
    match g
    case Sending(a, _) => 1 <= a <= Retry.MAX_RETRIES
    case Sleeping(a, _, _) => 1 <= a < Retry.MAX_RETRIES
    case _ => true
  }

  /** How often a handler at this stage can still send. */
  function StageRest(g: Stage): nat
    requires AttemptBounded(g)
  {
    match g
    case Queued => Retry.MAX_RETRIES
    case Admitted => Retry.MAX_RETRIES
    case Sending(a, _) => Retry.MAX_RETRIES - a
    case Sleeping(a, _, _) => Retry.MAX_RETRIES - a
    case _ => 0
  }

  /** How often the message can still be sent without another delivery. */
  ghost function Rest(s: State, c: Cid): (n: nat)
    requires AttemptsBounded(s)
    ensures n <= Retry.MAX_RETRIES
  {
    if c in s.ledger.place && s.ledger.place[c].HeldBy? && s.ledger.place[c].tag in s.handlers
    then StageRest(s.handlers[s.ledger.place[c].tag].stage) else 0
  }

  /** The handler goes on, and what it sends it takes from its rest. */
  ghost predicate Spends(s: State, s': State, tag: Tag)
    requires tag in s.handlers && AttemptBounded(s.handlers[tag].stage)
  {
    var h := s.handlers[tag];
    && tag in s'.handlers && s'.ledger.place == s.ledger.place && AttemptBounded(s'.handlers[tag].stage)
    && TallyOf(s', h.cid).sends + StageRest(s'.handlers[tag].stage) <= TallyOf(s, h.cid).sends + StageRest(h.stage)
  }

  lemma StartSpends(s: State, tag: Tag, wellFormed: bool)
    requires tag in s.handlers && s.handlers[tag].stage.Admitted?
    ensures Spends(s, StartForward(s, tag, wellFormed), tag)
  {
  }

  lemma SendAgainSpends(s: State, tag: Tag)
    requires tag in s.handlers && s.handlers[tag].stage.Sleeping? && AttemptBounded(s.handlers[tag].stage)
    ensures Spends(s, SendAgain(s, tag), tag)
  {
  }

  lemma AttemptSpends(s: State, tag: Tag, a: Retry.Attempt)
    requires tag in s.handlers && s.handlers[tag].stage.Sending? && AttemptBounded(s.handlers[tag].stage)
    ensures Spends(s, AfterAttempt(s, tag, a), tag)
  {
  }

  lemma GoingOnSpends(s: State, e: WorkerEvent)
    requires WorkerEnabled(s, e) && !Ends(e) && AttemptBounded(s.handlers[e.tag].stage)
    ensures Spends(s, ApplyWorker(s, e), e.tag)
  {
    hide StartForward;
    hide SendAgain;
    hide AfterAttempt;
    match e
    case TakePermit(tag) =>
    case Start(tag, wellFormed) =>
      StartSpends(s, tag, wellFormed);
    case Respond(tag, a) =>
      AttemptSpends(s, tag, a);
    case Wake(tag) =>
      SendAgainSpends(s, tag);
    case PublishReply(tag) =>
  }

  /** What a worker event does to the stage and the sends of its own message. */
  lemma WorkerSpends(s: State, e: WorkerEvent)
    requires WorkerEnabled(s, e) && AttemptBounded(s.handlers[e.tag].stage)
    ensures e.tag in ApplyWorker(s, e).handlers ==> Spends(s, ApplyWorker(s, e), e.tag)
    ensures e.tag !in ApplyWorker(s, e).handlers ==> ApplyWorker(s, e).ledger.tally == s.ledger.tally
  {
    hide ApplyWorker;
    hide Spends;
    if Ends(e) {
      WorkerEndsQuietly(s, e);
    } else {
      GoingOnSpends(s, e);
      WorkerGoesOn(s, e);
    }
  }

  lemma WorkerEndsQuietly(s: State, e: WorkerEvent)
    requires WorkerEnabled(s, e) && Ends(e)
    ensures e.tag !in ApplyWorker(s, e).handlers && ApplyWorker(s, e).ledger.tally == s.ledger.tally
  {
    hide Settleable;
  }

  lemma WorkerStaysBounded(s: State, e: WorkerEvent)
    requires WorkerEnabled(s, e) && AttemptsBounded(s)
    ensures AttemptsBounded(ApplyWorker(s, e))
  {
    WorkerSpends(s, e);
    WorkerFrame(s, e);
    hide ApplyWorker;
  }

  lemma StepStaysBounded(p: Params, s: State, e: Event)
    requires AttemptsBounded(s) && Enabled(s, e)
    ensures AttemptsBounded(Apply(p, s, e))
  {
    hide ApplyRouter;
    hide ApplyBroker;
    hide ApplyWorker;
    match e
    case OfRouter(r) => RouterFrame(s, r);
    case OfBroker(b) => BrokerFrame(p, s, b);
    case OfWorker(w) => WorkerStaysBounded(s, w);
    case OfWorld(x) => WorldFrame(s, x);
  }

  /** The account of a message that is not touched. */
  lemma UntouchedSpendsNothing(s: State, s': State, c: Cid)
    requires AttemptsBounded(s) && AttemptsBounded(s') && Untouched(s, s', c) && c in s.broker.messages
    ensures TallyOf(s', c) == TallyOf(s, c) && Rest(s', c) == Rest(s, c)
  {
  }

  /** The message is no longer held, or still by the delivery whose handler has ended. */
  predicate SettledPlace(s: State, c: Cid, tag: Tag) {
    c in s.ledger.place && s.ledger.place[c].HeldBy? ==> s.ledger.place[c].tag == tag
  }

  lemma WorkerLeaves(s: State, e: WorkerEvent)
    requires WorkerEnabled(s, e)
    requires var c := s.handlers[e.tag].cid;
      c in s.ledger.place && s.ledger.place[c] == HeldBy(e.tag)
    ensures e.tag !in ApplyWorker(s, e).handlers ==> SettledPlace(ApplyWorker(s, e), s.handlers[e.tag].cid, e.tag)
  {
    if Ends(e) {
      hide Finish;
      match e
      case Ack(tag) => FinishKeepsLedger(if Settleable(s.broker, tag) then Acknowledge(s, tag) else s, tag);
      case Nack(tag) => FinishKeepsLedger(if Settleable(s.broker, tag) then Requeue(s, tag) else s, tag);
      case PublishReplyFails(tag, sent) =>
        FinishKeepsLedger(if sent then Publish(s, s.handlers[tag].stage.reply) else s, tag);
    } else {
      WorkerGoesOn(s, e);
      hide ApplyWorker;
    }
  }

  lemma WorkerKeepsBudget(s: State, e: WorkerEvent, c: Cid)
    requires BrokerInv(s) && HandlersOwn(s) && AttemptsBounded(s) && WorkerEnabled(s, e) && c in s.broker.messages
    requires AttemptsBounded(ApplyWorker(s, e))
    ensures TallyOf(ApplyWorker(s, e), c).sends + Rest(ApplyWorker(s, e), c) <= TallyOf(s, c).sends + Rest(s, c)
  {
    hide ApplyWorker;
    hide HandlersOwn;
    hide BrokerInv;
    hide Settleable;
    hide TallyOf;
    HandlerHolds(s, e.tag);
    if c == s.handlers[e.tag].cid {
      WorkerSpends(s, e);
      WorkerFrame(s, e);
      WorkerLeaves(s, e);
      OwnBudget(s, ApplyWorker(s, e), e.tag);
    } else {
      WorkerEventTouchesSubject(s, e, c);
      UntouchedSpendsNothing(s, ApplyWorker(s, e), c);
    }
  }

  lemma OwnBudget(s: State, s': State, tag: Tag)
    requires AttemptsBounded(s) && AttemptsBounded(s') && tag in s.handlers
    requires var h := s.handlers[tag];
      && h.cid in s.ledger.place && s.ledger.place[h.cid] == HeldBy(tag)
      && (tag in s'.handlers ==> Spends(s, s', tag))
      && (tag !in s'.handlers ==>
            s'.ledger.tally == s.ledger.tally && s'.handlers == s.handlers - {tag} && SettledPlace(s', h.cid, tag))
    ensures var c := s.handlers[tag].cid;
      TallyOf(s', c).sends + Rest(s', c) <= TallyOf(s, c).sends + Rest(s, c)
  {
  }

  lemma BrokerKeepsBudget(p: Params, s: State, e: BrokerEvent, c: Cid)
    requires BrokerInv(s) && HandlersOwn(s) && AttemptsBounded(s) && BrokerEnabled(s, e)
    requires c in s.broker.messages && e != ChannelLoss && e != Deliver(c)
    requires AttemptsBounded(ApplyBroker(p, s, e))
    ensures TallyOf(ApplyBroker(p, s, e), c).sends + Rest(ApplyBroker(p, s, e), c) <= TallyOf(s, c).sends + Rest(s, c)
  {
    hide PlacesAgree;
    hide HandlersOwn;
    hide AttemptsBounded;
    hide TallyOf;
    hide Untouched;
    if e == Expire(c) {
      ExpirySpendsNothing(s, c);
    } else {
      AcceptedIsMessage(s);
      assert Subject(s, OfBroker(e)) != Some(c);
      BrokerTouchesOthers(p, s, e, c);
      UntouchedSpendsNothing(s, ApplyBroker(p, s, e), c);
    }
  }

  lemma AcceptedIsMessage(s: State)
    requires PlacesAgree(s.broker, s.ledger.place)
    ensures s.broker.messages.Keys <= s.broker.accepted
  {
  }

  lemma ExpirySpendsNothing(s: State, c: Cid)
    requires c in s.broker.messages && AttemptsBounded(s) && AttemptsBounded(ExpireMessage(s, c))
    ensures TallyOf(ExpireMessage(s, c), c) == TallyOf(s, c) && Rest(ExpireMessage(s, c), c) == 0
  {
  }

  /** Without another delivery, sends plus what the current delivery can still send never grow. */
  lemma StepKeepsBudget(p: Params, s: State, e: Event, c: Cid)
    requires BrokerInv(s) && HandlersOwn(s) && AttemptsBounded(s) && Enabled(s, e) && c in s.broker.messages
    requires e != OfBroker(ChannelLoss) && e != OfBroker(Deliver(c)) && AttemptsBounded(Apply(p, s, e))
    ensures TallyOf(Apply(p, s, e), c).sends + Rest(Apply(p, s, e), c) <= TallyOf(s, c).sends + Rest(s, c)
  {
    hide BrokerInv;
    hide HandlersOwn;
    hide AttemptsBounded;
    hide ApplyRouter;
    hide ApplyBroker;
    hide ApplyWorker;
    match e
    case OfRouter(r) => RouterFrame(s, r);
    case OfBroker(b) => BrokerKeepsBudget(p, s, b, c);
    case OfWorker(w) => WorkerKeepsBudget(s, w, c);
    case OfWorld(x) => WorldFrame(s, x);
  }

  lemma {:induction false} RunKeepsBudget(p: Params, s: State, es: seq<Event>, c: Cid)
    requires Inv(p, s) && HandlersOwn(s) && AttemptsBounded(s) && IsRun(p, s, es) && ChannelHolds(es)
    requires c in s.broker.messages && OfBroker(Deliver(c)) !in es
    ensures TallyOf(Exec(p, s, es), c).sends <= TallyOf(s, c).sends + Rest(s, c)
    decreases |es|
  {
    hide Apply;
    hide Enabled;
    hide AttemptsBounded;
    hide HandlersOwn;
    hide BrokerInv;
    hide TallyOf;
    hide Rest;
    if es != [] {
      assert es == [es[0]] + es[1..];
      var s' := Apply(p, s, es[0]);
      StepStaysBounded(p, s, es[0]);
      StepKeepsBudget(p, s, es[0], c) by { assert BrokerInv(s); }
      StepKeepsOwn(p, s, es[0]) by { assert BrokerInv(s); }
      StepKeepsMessage(p, s, es[0], c);
      StepKeepsInv(p, s, es[0]);
      hide Inv;
      RunKeepsBudget(p, s', es[1..], c);
    }
  }

  lemma {:induction false} RunKeepsOwn(p: Params, s: State, es: seq<Event>)
    requires Inv(p, s) && HandlersOwn(s) && AttemptsBounded(s) && IsRun(p, s, es) && ChannelHolds(es)
    ensures HandlersOwn(Exec(p, s, es)) && AttemptsBounded(Exec(p, s, es))
    decreases |es|
  {
    hide Apply;
    hide Enabled;
    hide AttemptsBounded;
    hide HandlersOwn;
    hide BrokerInv;
    if es != [] {
      StepStaysBounded(p, s, es[0]);
      StepKeepsOwn(p, s, es[0]) by { assert BrokerInv(s); }
      StepKeepsInv(p, s, es[0]);
      hide Inv;
      RunKeepsOwn(p, Apply(p, s, es[0]), es[1..]);
    }
  }

  /** Main result: with the expiration read in milliseconds and a channel that holds, a message is sent
      to its target at most five more times once its requester has got the 504: the rest of the one
      round that may be under way. */
  lemma SendsAfterTimeout(p: Params, es: seq<Event>, more: seq<Event>, c: Cid)
    requires p.ttlUnit <= 1
    requires IsRun(p, Init(p), es) && ChannelHolds(es)
    requires IsRun(p, Reached(p, es), more) && ChannelHolds(more)
    requires c in Reached(p, es).requests && Reached(p, es).requests[c].phase.TimedOut?
    requires c in Reached(p, es).broker.messages
    ensures TallyOf(Exec(p, Reached(p, es), more), c).sends
      <= TallyOf(Reached(p, es), c).sends + 5
  {
    hide IsRun;
    hide Inv;
    hide HandlersOwn;
    hide AttemptsBounded;
    hide TallyOf;
    InitIsQuiet(p);
    InitHolds(p);
    ReachedHolds(p, es);
    RunKeepsOwn(p, Init(p), es);
    NoDeliveryAfterTimeout(p, Reached(p, es), more, c);
    RunKeepsBudget(p, Reached(p, es), more, c);
  }
}
