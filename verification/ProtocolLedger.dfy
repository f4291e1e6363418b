/** The history kept in the ledger is that of the run: its tallies count events, and its clocks are
    those the router and the broker go by. */
module ProtocolLedger {
  import opened PendingTable
  import opened Protocol
  import opened ProtocolSafety
  import opened ProtocolRuns

  // ---------------------------------------------------------------- tallies count events

  function One(b: bool): nat {
    if b then 1 else 0
  }

  predicate WorksOn(s: State, e: Event, c: Cid) {
    e.OfWorker? && e.worker.tag in s.handlers && s.handlers[e.worker.tag].cid == c
  }

  /** With this event a handler of the message starts to send it to the target. */
  predicate BeginsSend(s: State, e: Event, s': State, c: Cid) {
    && WorksOn(s, e, c) && e.worker.tag in s'.handlers
    && s'.handlers[e.worker.tag].stage.Sending? && !s.handlers[e.worker.tag].stage.Sending?
  }

  /** With this event a handler of the message sees the flag off. */
  predicate IsTurnedAway(s: State, e: Event, s': State, c: Cid) {
    && WorksOn(s, e, c) && e.worker.tag in s'.handlers
    && s'.handlers[e.worker.tag].stage.Paused? && !s.handlers[e.worker.tag].stage.Paused?
  }

  function DeliveriesIn(es: seq<Event>, c: Cid): nat {
    if es == [] then 0 else One(es[0] == OfBroker(Deliver(c))) + DeliveriesIn(es[1..], c)
  }

  function SendsIn(p: Params, s: State, es: seq<Event>, c: Cid): nat
    requires IsRun(p, s, es)
    decreases |es|
  {
    if es == [] then 0
    else var s' := Apply(p, s, es[0]); One(BeginsSend(s, es[0], s', c)) + SendsIn(p, s', es[1..], c)
  }

  function PausesIn(p: Params, s: State, es: seq<Event>, c: Cid): nat
    requires IsRun(p, s, es)
    decreases |es|
  {
    if es == [] then 0
    else var s' := Apply(p, s, es[0]); One(IsTurnedAway(s, es[0], s', c)) + PausesIn(p, s', es[1..], c)
  }

  /** What an event adds to the tally of a message. */
  ghost predicate Adds(s: State, e: Event, s': State, c: Cid) {
    var t, t' := TallyOf(s, c), TallyOf(s', c);
    && t'.deliveries == t.deliveries + One(e == OfBroker(Deliver(c)))
    && t'.sends == t.sends + One(BeginsSend(s, e, s', c))
    && t'.pauses == t.pauses + One(IsTurnedAway(s, e, s', c))
  }

  ghost predicate OnlyMessagesTallied(s: State) {
    s.ledger.tally.Keys <= s.broker.messages.Keys
  }

  lemma StartAdds(s: State, tag: Tag, wellFormed: bool, c: Cid)
    requires WorkerEnabled(s, Start(tag, wellFormed))
    ensures Adds(s, OfWorker(Start(tag, wellFormed)), StartForward(s, tag, wellFormed), c)
    ensures StartForward(s, tag, wellFormed).ledger.tally.Keys <= s.ledger.tally.Keys + {s.handlers[tag].cid}
    ensures StartForward(s, tag, wellFormed).broker == s.broker
  {
  }

  lemma WakeAdds(s: State, tag: Tag, c: Cid)
    requires WorkerEnabled(s, Wake(tag))
    ensures Adds(s, OfWorker(Wake(tag)), SendAgain(s, tag), c)
    ensures SendAgain(s, tag).ledger.tally.Keys <= s.ledger.tally.Keys + {s.handlers[tag].cid}
    ensures SendAgain(s, tag).broker == s.broker
  {
  }

  lemma OthersTallyNothing(s: State, e: WorkerEvent)
    requires WorkerEnabled(s, e) && !e.Start? && !e.Wake?
    ensures var s' := ApplyWorker(s, e);
      && s'.ledger.tally == s.ledger.tally
      && (e.tag in s'.handlers ==>
            && !s'.handlers[e.tag].stage.Paused?
            && (s'.handlers[e.tag].stage.Sending? ==> s.handlers[e.tag].stage.Sending?))
  {
    hide Settleable;
  }

  lemma WorkerAdds(s: State, e: WorkerEvent, c: Cid)
    requires WorkerEnabled(s, e) && s.handlers[e.tag].cid in s.broker.messages && OnlyMessagesTallied(s)
    ensures Adds(s, OfWorker(e), ApplyWorker(s, e), c) && OnlyMessagesTallied(ApplyWorker(s, e))
  {
    match e
    case Start(tag, wellFormed) =>
      StartAdds(s, tag, wellFormed, c);
      hide StartForward;
      hide Adds;
    case Wake(tag) =>
      WakeAdds(s, tag, c);
      hide SendAgain;
      hide Adds;
    case _ =>
      OthersTallyNothing(s, e);
      WorkerStepMessages(s, e);
      hide ApplyWorker;
  }

  lemma BrokerAdds(p: Params, s: State, e: BrokerEvent, c: Cid)
    requires BrokerEnabled(s, e) && OnlyMessagesTallied(s) && s.broker.messages.Keys <= s.broker.accepted
    ensures Adds(s, OfBroker(e), ApplyBroker(p, s, e), c) && OnlyMessagesTallied(ApplyBroker(p, s, e))
  {
    hide AcceptMessage;
    if e.Accept? { AcceptRoutes(p, s, e.cid); }
  }

  lemma StepAdds(p: Params, s: State, e: Event, c: Cid)
    requires BrokerInv(s) && OnlyMessagesTallied(s) && Enabled(s, e)
    ensures Adds(s, e, Apply(p, s, e), c) && OnlyMessagesTallied(Apply(p, s, e))
  {
    hide ApplyRouter;
    hide ApplyBroker;
    hide ApplyWorker;
    match e
    case OfRouter(r) => RouterFrame(s, r);
    case OfBroker(b) => BrokerAdds(p, s, b, c);
    case OfWorker(w) =>
      assert HandlerAgrees(s, w.tag);
      WorkerAdds(s, w, c);
    case OfWorld(x) => WorldFrame(s, x);
  }

  lemma {:induction false} RunAdds(p: Params, s: State, es: seq<Event>, c: Cid)
    requires Inv(p, s) && OnlyMessagesTallied(s) && IsRun(p, s, es)
    ensures var t, t' := TallyOf(s, c), TallyOf(Exec(p, s, es), c);
      && t'.deliveries == t.deliveries + DeliveriesIn(es, c)
      && t'.sends == t.sends + SendsIn(p, s, es, c)
      && t'.pauses == t.pauses + PausesIn(p, s, es, c)
    decreases |es|
  {
    hide Apply;
    hide Enabled;
    hide OnlyMessagesTallied;
    hide TallyOf;
    hide BeginsSend;
    hide IsTurnedAway;
    if es != [] {
      StepAdds(p, s, es[0], c) by { assert BrokerInv(s); }
      StepKeepsInv(p, s, es[0]);
      hide Inv;
      RunAdds(p, Apply(p, s, es[0]), es[1..], c);
    }
  }

  /** Main result: after any run the tally of a message is the number of its deliveries, of the sends to
      the target begun for it, and of the times it was turned away, counted over the run. */
  lemma TallyCountsRun(p: Params, es: seq<Event>, c: Cid)
    requires IsRun(p, Init(p), es)
    ensures TallyOf(Reached(p, es), c)
      == Tally(DeliveriesIn(es, c), PausesIn(p, Init(p), es, c), SendsIn(p, Init(p), es, c))
  {
    hide IsRun;
    InitHolds(p);
    assert TallyOf(Init(p), c) == Tally(0, 0, 0);
    RunAdds(p, Init(p), es, c);
  }

  // ---------------------------------------------------------------- clocks

  /** A message expires a deadline after it was routed, in the broker's unit. The timer of its request
      can fire, and has fired, only when a deadline has passed since its wait began, which was not before
      the message was routed. */
  ghost predicate KeepsDeadline(p: Params, s: State, c: Cid)
    requires c in s.requests
  {
    var d := 1000 * s.requests[c].deadlineSec;
    && (c in s.broker.messages ==> s.broker.messages[c].expiry == s.broker.messages[c].routedAt + d * p.ttlUnit)
    && (s.requests[c].phase.Waiting? ==>
          var since := s.requests[c].phase.since;
          && (c in s.broker.messages ==> s.broker.messages[c].routedAt <= since)
          && (s.requests[c].phase.timerFired ==> s.now >= since + d)
          && (RouterEnabled(s, TimerFires(c)) <==> !s.requests[c].phase.timerFired && s.now >= since + d))
    && (s.requests[c].phase.TimedOut? && c in s.broker.messages ==> s.broker.messages[c].routedAt + d <= s.now)
  }

  lemma ClocksKeepDeadline(p: Params, s: State, c: Cid)
    requires ClocksAgree(p, s) && c in s.requests
    ensures KeepsDeadline(p, s, c)
  {
    assert PhaseTimely(s, c);
    if c in s.broker.messages {
      assert MessageTimely(p, s, c);
    }
  }

  lemma DeadlinesOfRun(p: Params, es: seq<Event>, c: Cid)
    requires IsRun(p, Init(p), es) && c in Reached(p, es).requests
    ensures KeepsDeadline(p, Reached(p, es), c)
  {
    hide KeepsDeadline;
    hide ClocksAgree;
    ReachedHolds(p, es);
    ClocksKeepDeadline(p, Reached(p, es), c);
  }
}
