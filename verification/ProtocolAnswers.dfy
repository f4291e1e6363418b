/** What the target says and what the requester gets to hear. */
module ProtocolAnswers {
  import opened PendingTable
  import opened Protocol
  import opened ProtocolSafety
  import opened ProtocolRuns
  import Retry

  // ---------------------------------------------------------------- one attempt

  /** A response with any other status than the four that are retried is the reply to be sent, status
      and body as they are. */
  lemma ResponseIsRelayed(s: State, tag: Tag, status: int, body: string)
    requires WorkerEnabled(s, Respond(tag, Retry.Response(status, body))) && status !in {500, 502, 503, 504}
    ensures var s' := ApplyWorker(s, Respond(tag, Retry.Response(status, body)));
      && tag in s'.handlers
      && s'.handlers[tag].stage == Replying(Reply(s.handlers[tag].cid, status, body))
  {
  }

  /** One of the four, or an error that is retried, lets the handler sleep, and fails the forward at the
      fifth attempt. Any other error fails it at once. */
  lemma FailureIsRetried(s: State, tag: Tag, a: Retry.Attempt)
    requires WorkerEnabled(s, Respond(tag, a))
    requires a.Response? ==> a.status in {500, 502, 503, 504}
    ensures var s', g := ApplyWorker(s, Respond(tag, a)), s.handlers[tag].stage;
      && tag in s'.handlers
      && s'.handlers[tag].stage ==
           if a == Retry.OtherError || g.attempt == 5 then Failed else Sleeping(g.attempt, g.delay, s.now + g.delay)
  {
  }

  /** The first send comes with a delay of one second in hand, and each further one, after its sleep,
      with the double. */
  lemma DelaysDouble(s: State, tag: Tag)
    ensures WorkerEnabled(s, Start(tag, true)) && (s.enabled || s.handlers[tag].queue.qType.Direct?) ==>
      var s' := ApplyWorker(s, Start(tag, true));
      tag in s'.handlers && s'.handlers[tag].stage == Sending(1, 1000)
    ensures WorkerEnabled(s, Wake(tag)) ==>
      var s', g := ApplyWorker(s, Wake(tag)), s.handlers[tag].stage;
      && s.now >= g.until
      && tag in s'.handlers && s'.handlers[tag].stage == Sending(g.attempt + 1, 2 * g.delay)
  {
  }

  // ---------------------------------------------------------------- over runs

  /** In this event the target gives the answer `r` to the request that the handler works on. */
  ghost predicate TargetSays(s: State, e: Event, r: Reply) {
    exists t :: e == OfWorker(Respond(t, Retry.Response(r.status, r.body)))
      && t in s.handlers && s.handlers[t].cid == r.correlationId
  }

  /** In some event of the run it does. */
  ghost predicate TargetSaid(p: Params, s: State, es: seq<Event>, r: Reply)
    requires IsRun(p, s, es)
    decreases |es|
  {
    es != [] && (TargetSays(s, es[0], r) || TargetSaid(p, Apply(p, s, es[0]), es[1..], r))
  }

  ghost predicate AboutToReply(s: State, r: Reply) {
    exists t :: t in s.handlers && s.handlers[t].stage == Replying(r)
  }

  lemma WorkerHears(s: State, e: WorkerEvent, r: Reply)
    requires WorkerEnabled(s, e)
    ensures e.tag in ApplyWorker(s, e).handlers && ApplyWorker(s, e).handlers[e.tag].stage == Replying(r) ==>
      TargetSays(s, OfWorker(e), r)
    ensures r in ApplyWorker(s, e).ledger.published ==>
      r in s.ledger.published || s.handlers[e.tag].stage == Replying(r)
  {
    hide Settleable;
    hide TargetSays;
    if e.Respond? && e.attempt.Response? && e.attempt.status !in {500, 502, 503, 504} {
      ResponseIsRelayed(s, e.tag, e.attempt.status, e.attempt.body);
      SaysIt(s, e);
    }
  }

  lemma SaysIt(s: State, e: WorkerEvent)
    requires WorkerEnabled(s, e) && e.Respond? && e.attempt.Response?
    ensures TargetSays(s, OfWorker(e), Reply(s.handlers[e.tag].cid, e.attempt.status, e.attempt.body))
  {
    assert e == Respond(e.tag, Retry.Response(e.attempt.status, e.attempt.body));
  }

  lemma StepHears(p: Params, s: State, e: Event, r: Reply)
    requires Enabled(s, e)
    ensures AboutToReply(Apply(p, s, e), r) ==> AboutToReply(s, r) || TargetSays(s, e, r)
    ensures r in Apply(p, s, e).ledger.published ==> r in s.ledger.published || AboutToReply(s, r)
  {
    hide ApplyRouter;
    hide ApplyBroker;
    hide ApplyWorker;
    hide TargetSays;
    match e
    case OfRouter(x) => RouterFrame(s, x);
    case OfBroker(b) => BrokerFrame(p, s, b);
    case OfWorker(w) =>
      WorkerHears(s, w, r);
      WorkerFrame(s, w);
    case OfWorld(x) => WorldFrame(s, x);
  }

  lemma {:induction false} RunHears(p: Params, s: State, es: seq<Event>, r: Reply)
    requires IsRun(p, s, es) && r in Exec(p, s, es).ledger.published
    ensures r in s.ledger.published || AboutToReply(s, r) || TargetSaid(p, s, es, r)
    decreases |es|
  {
    hide Apply;
    hide Enabled;
    hide AboutToReply;
    hide TargetSays;
    if es != [] {
      StepHears(p, s, es[0], r);
      RunHears(p, Apply(p, s, es[0]), es[1..], r);
    }
  }

  /** Main result: after any run, whatever was retried, redelivered or lost, every reply ever published
      has a status and a body that the target gave, in this run, for this very request. */
  lemma RepliesAreTheTargets(p: Params, es: seq<Event>, r: Reply)
    requires IsRun(p, Init(p), es) && r in Reached(p, es).ledger.published
    ensures TargetSaid(p, Init(p), es, r)
  {
    hide IsRun;
    RunHears(p, Init(p), es, r);
  }

  /** So has the reply a requester is answered with. */
  lemma AnswersAreTheTargets(p: Params, es: seq<Event>, c: Cid)
    requires IsRun(p, Init(p), es)
    requires c in Reached(p, es).requests && Reached(p, es).requests[c].phase.Answered?
    ensures var r := Reached(p, es).requests[c].phase.reply;
      r.correlationId == c && TargetSaid(p, Init(p), es, r)
  {
    AnswerIsItsOwn(p, es, c);
    RepliesAreTheTargets(p, es, Reached(p, es).requests[c].phase.reply);
  }
}
