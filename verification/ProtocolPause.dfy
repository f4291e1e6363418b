/** The pause flag and the deadline: when a buffered message may be forwarded, and when any message
    may be delivered at all. */
module ProtocolPause {
  import opened Wrappers
  import opened PendingTable
  import opened Routing
  import opened Protocol
  import opened ProtocolSafety
  import opened ProtocolRuns

  // ---------------------------------------------------------------- pause

  /** The handler has begun to forward. */
  predicate Forwarding(stage: Stage) {
    stage.Sending? || stage.Sleeping? || stage.Replying? || stage.Replied?
  }

  /** Main result: whatever the step, a forward of a buffered message begins only in a state where
      the flag is on. */
  lemma ForwardBeginsOnlyWhenEnabled(p: Params, s: State, e: Event, t: Tag)
    requires Enabled(s, e)
    requires t in Apply(p, s, e).handlers
    requires var h := Apply(p, s, e).handlers[t]; h.queue.qType.Buffered? && Forwarding(h.stage)
    requires t !in s.handlers || !Forwarding(s.handlers[t].stage)
    ensures s.enabled
  {
    hide ApplyRouter;
    hide ApplyBroker;
    match e
    case OfRouter(r) => RouterFrame(s, r);
    case OfBroker(b) => BrokerFrame(p, s, b);
    case OfWorker(w) =>
      if w.tag == t {
        WorkerBeginsOnlyWhenEnabled(s, w);
      } else {
        WorkerFrame(s, w);
      }
      hide ApplyWorker;
    case OfWorld(x) => WorldFrame(s, x);
  }

  lemma WorkerBeginsOnlyWhenEnabled(s: State, e: WorkerEvent)
    requires WorkerEnabled(s, e) && e.tag in ApplyWorker(s, e).handlers
    requires s.handlers[e.tag].queue.qType.Buffered?
    requires Forwarding(ApplyWorker(s, e).handlers[e.tag].stage) && !Forwarding(s.handlers[e.tag].stage)
    ensures s.enabled
  {
    hide Settleable;
  }

  /** A handler that saw the flag off stays put until its nack, which publishes and acknowledges
      nothing and, on a live channel, returns the message to its queue. */
  lemma PausedStep(p: Params, s: State, e: Event, t: Tag)
    requires Enabled(s, e) && HandlersAgree(s) && t in s.handlers && s.handlers[t].stage.Paused?
    ensures var s' := Apply(p, s, e);
      if e == OfWorker(Nack(t)) then
        && t !in s'.handlers
        && s'.ledger.published == s.ledger.published && s'.replies == s.replies
        && s'.broker.acked == s.broker.acked
        && (Settleable(s.broker, t) ==>
              s'.broker.ready == s.broker.ready + multiset{Slot(s.handlers[t].queue, s.handlers[t].cid)}
              && t !in s'.broker.unacked)
      else t in s'.handlers && s'.handlers[t] == s.handlers[t]
  {
    hide ApplyRouter;
    hide ApplyBroker;
    match e
    case OfRouter(r) => RouterFrame(s, r);
    case OfBroker(b) => BrokerFrame(p, s, b);
    case OfWorker(w) =>
      if w.tag == t {
        assert w == Nack(t);
      } else {
        WorkerFrame(s, w);
        hide ApplyWorker;
      }
    case OfWorld(x) =>
  }

  /** A tag that has been given out and has no handler any more never gets one again. */
  lemma EndedStaysEnded(p: Params, s: State, e: Event, t: Tag)
    requires Enabled(s, e) && t < s.broker.nextTag && t !in s.handlers
    ensures t !in Apply(p, s, e).handlers
  {
    hide ApplyRouter;
    hide ApplyBroker;
    hide ApplyWorker;
    match e
    case OfRouter(r) => RouterFrame(s, r);
    case OfBroker(b) => BrokerFrame(p, s, b);
    case OfWorker(w) => WorkerFrame(s, w);
    case OfWorld(x) =>
  }

  /** The delivery is being turned away or is over. */
  predicate PausedOrOver(s: State, t: Tag) {
    t < s.broker.nextTag && (t in s.handlers ==> s.handlers[t].stage.Paused?)
  }

  lemma PausedOrOverStep(p: Params, s: State, e: Event, t: Tag)
    requires BrokerInv(s) && Enabled(s, e) && PausedOrOver(s, t)
    ensures PausedOrOver(Apply(p, s, e), t)
    ensures e.OfWorker? && e.worker.tag == t ==> e.worker.Nack?
  {
    StepGrows(p, s, e);
    if t in s.handlers {
      PausedStep(p, s, e, t);
    } else {
      EndedStaysEnded(p, s, e, t);
    }
    hide Apply;
  }

  /** Main result: in no continuation does a handler that saw the flag off do anything but nack. */
  lemma {:induction false} PausedOnlyNacks(p: Params, s: State, es: seq<Event>, t: Tag)
    requires Inv(p, s) && IsRun(p, s, es) && PausedOrOver(s, t)
    ensures forall i :: 0 <= i < |es| && es[i].OfWorker? && es[i].worker.tag == t ==> es[i].worker.Nack?
    decreases |es|
  {
    hide Apply;
    hide Enabled;
    hide PausedOrOver;
    if es != [] {
      PausedOrOverStep(p, s, es[0], t) by { assert BrokerInv(s); }
      StepKeepsInv(p, s, es[0]);
      hide Inv;
      PausedOnlyNacks(p, Apply(p, s, es[0]), es[1..], t);
      assert forall i :: 0 < i < |es| ==> es[i] == es[1..][i - 1];
    }
  }

  // ---------------------------------------------------------------- deadline

  /** The requester has given up, or its timer has fired and it is about to. */
  predicate GivenUp(phase: Phase) {
    phase.Cancelling? || phase.TimedOut? || (phase.Waiting? && phase.timerFired)
  }

  lemma AtMostOneUnit(ms: nat, unit: nat)
    requires unit <= 1
    ensures ms * unit <= ms
  {
  }

  /** When the broker reads the expiration in milliseconds, a message that can be delivered belongs
      to a request whose timer cannot fire yet. */
  lemma DeliveryBeforeTimeout(p: Params, s: State, c: Cid)
    requires Inv(p, s) && p.ttlUnit <= 1 && BrokerEnabled(s, Deliver(c))
    ensures c in s.requests && !GivenUp(s.requests[c].phase)
    ensures !RouterEnabled(s, TimerFires(c))
  {
    assert MessageTimely(p, s, c);
    assert PhaseTimely(s, c);
    AtMostOneUnit(DeadlineMs(s.requests[c]), p.ttlUnit);
  }

  /** Main result: after a request has timed out no continuation delivers its message. */
  lemma {:induction false} NoDeliveryAfterTimeout(p: Params, s: State, es: seq<Event>, c: Cid)
    requires Inv(p, s) && IsRun(p, s, es) && p.ttlUnit <= 1
    requires c in s.requests && s.requests[c].phase.TimedOut?
    ensures OfBroker(Deliver(c)) !in es
    decreases |es|
  {
    hide Inv;
    hide Apply;
    hide Enabled;
    if es != [] {
      assert es == [es[0]] + es[1..];
      assert es[0] != OfBroker(Deliver(c)) by { TimedOutBlocksDelivery(p, s, c, es[0]); }
      StepKeepsInv(p, s, es[0]);
      StepPersists(p, s, es[0]);
      NoDeliveryAfterTimeout(p, Apply(p, s, es[0]), es[1..], c);
    }
  }

  lemma TimedOutBlocksDelivery(p: Params, s: State, c: Cid, e: Event)
    requires Inv(p, s) && p.ttlUnit <= 1 && Enabled(s, e)
    requires c in s.requests && s.requests[c].phase.TimedOut?
    ensures e != OfBroker(Deliver(c))
  {
    hide Inv;
    if BrokerEnabled(s, Deliver(c)) {
      DeliveryBeforeTimeout(p, s, c);
    }
  }
}
