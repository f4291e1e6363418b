/** The pending table after a run, read off the events of the run. */
module ProtocolTable {
  import opened PendingTable
  import opened Protocol
  import opened ProtocolSafety
  import opened ProtocolRuns

  /** The requests whose publish raises, and those to whose id a reply arrives. */
  function RaisedBy(e: Event): set<Cid> {
    if e.OfRouter? && e.router.PublishRaises? then {e.router.cid} else {}
  }

  function ArrivedBy(e: Event): set<Cid> {
    if e.OfRouter? && e.router.ReplyArrives? then {e.router.reply.correlationId} else {}
  }

  function RaisedIn(es: seq<Event>): set<Cid> {
    if es == [] then {} else RaisedBy(es[0]) + RaisedIn(es[1..])
  }

  function ArrivedIn(es: seq<Event>): set<Cid> {
    if es == [] then {} else ArrivedBy(es[0]) + ArrivedIn(es[1..])
  }

  /** The requests that failed are those whose publish raised; a future has been completed by a reply
      only if one arrived, and is undone only if none did. */
  ghost predicate HistoryAgrees(s: State, raised: set<Cid>, arrived: set<Cid>) {
    && (forall c :: c in raised <==> c in s.requests && s.requests[c].phase.PublishFailed?)
    && arrived <= s.requests.Keys
    && (forall c :: c in s.table.futures ==> FutureAgrees(s.table.futures[c], c in arrived))
  }

  predicate FutureAgrees(f: FutureState, arrived: bool) {
    (f.Resolved? ==> arrived) && (arrived ==> !f.Undone?)
  }

  lemma ReplyKeepsHistory(s: State, reply: Reply, raised: set<Cid>, arrived: set<Cid>)
    requires HistoryAgrees(s, raised, arrived) && TableAgrees(s) && reply.correlationId in s.requests
    requires RouterEnabled(s, ReplyArrives(reply))
    ensures HistoryAgrees(ApplyRouter(s, ReplyArrives(reply)), raised, arrived + {reply.correlationId})
  {
    var own := reply.correlationId;
    var f, isPending := s.table.futures[own], own in s.table.pending;
    assert RequestAgrees(own, s.requests[own].phase, f, isPending, s.ledger.published);
    ReplyTouchesOnlyItsRequest(s.table, reply);
    hide TableAgrees;
  }

  lemma CoroutineKeepsHistory(s: State, e: RouterEvent, raised: set<Cid>, arrived: set<Cid>)
    requires HistoryAgrees(s, raised, arrived) && TableAgrees(s) && RouterEnabled(s, e) && !e.ReplyArrives?
    ensures HistoryAgrees(ApplyRouter(s, e), raised + RaisedBy(OfRouter(e)), arrived)
  {
    var s', c := ApplyRouter(s, e), e.cid;
    OwnHistory(s, e, raised, arrived);
    hide ApplyRouter;
    hide RouterEnabled;
    hide FutureAgrees;
    hide TableAgrees;
    forall d | d != c
      ensures d in s'.requests <==> d in s.requests
      ensures d in s.requests ==> s'.requests[d] == s.requests[d]
      ensures d in s'.table.futures <==> d in s.table.futures
      ensures d in s.table.futures ==> s'.table.futures[d] == s.table.futures[d]
    {
      CoroutineTouchesItsOwn(s, e, d);
    }
  }

  lemma OwnHistory(s: State, e: RouterEvent, raised: set<Cid>, arrived: set<Cid>)
    requires HistoryAgrees(s, raised, arrived) && TableAgrees(s) && RouterEnabled(s, e) && !e.ReplyArrives?
    ensures var s', c := ApplyRouter(s, e), e.cid;
      && c in s'.requests
      && (s'.requests[c].phase.PublishFailed? <==> c in raised || e.PublishRaises?)
      && (c in s'.table.futures ==> FutureAgrees(s'.table.futures[c], c in arrived))
  {
  }

  lemma StepKeepsHistory(p: Params, s: State, e: Event, raised: set<Cid>, arrived: set<Cid>)
    requires Inv(p, s) && HistoryAgrees(s, raised, arrived) && Enabled(s, e)
    ensures HistoryAgrees(Apply(p, s, e), raised + RaisedBy(e), arrived + ArrivedBy(e))
  {
    hide ApplyRouter;
    hide ApplyBroker;
    hide ApplyWorker;
    hide PlacesAgree;
    hide FutureAgrees;
    hide HandlersAgree;
    hide PermitsAddUp;
    assert raised + {} == raised && arrived + {} == arrived;
    match e
    case OfRouter(r) =>
      if r.ReplyArrives? {
        assert r.reply in s.ledger.published && r.reply.correlationId in s.broker.messages;
        assert MessageTimely(p, s, r.reply.correlationId);
        ReplyKeepsHistory(s, r.reply, raised, arrived);
      } else {
        CoroutineKeepsHistory(s, r, raised, arrived);
      }
    case OfBroker(b) => BrokerFrame(p, s, b);
    case OfWorker(w) => WorkerFrame(s, w);
    case OfWorld(x) => WorldFrame(s, x);
  }

  lemma {:induction false} RunKeepsHistory(p: Params, s: State, es: seq<Event>, raised: set<Cid>, arrived: set<Cid>)
    requires Inv(p, s) && HistoryAgrees(s, raised, arrived) && IsRun(p, s, es)
    ensures HistoryAgrees(Exec(p, s, es), raised + RaisedIn(es), arrived + ArrivedIn(es))
    decreases |es|
  {
    hide Apply;
    hide Enabled;
    hide HistoryAgrees;
    hide Inv;
    if es == [] {
      assert raised + {} == raised && arrived + {} == arrived;
    } else {
      var r, a := raised + RaisedBy(es[0]), arrived + ArrivedBy(es[0]);
      StepKeepsHistory(p, s, es[0], raised, arrived);
      StepKeepsInv(p, s, es[0]);
      RunKeepsHistory(p, Apply(p, s, es[0]), es[1..], r, a);
      assert r + RaisedIn(es[1..]) == raised + RaisedIn(es);
      assert a + ArrivedIn(es[1..]) == arrived + ArrivedIn(es);
    }
  }

  lemma InitHistory(p: Params)
    ensures HistoryAgrees(Init(p), {}, {})
  {
  }

  lemma ReachedHistory(p: Params, es: seq<Event>)
    requires IsRun(p, Init(p), es)
    ensures TableAgrees(Reached(p, es)) && HistoryAgrees(Reached(p, es), RaisedIn(es), ArrivedIn(es))
  {
    hide HistoryAgrees;
    hide TableAgrees;
    hide BrokerInv;
    hide ClocksAgree;
    InitHolds(p);
    InitHistory(p);
    ReachedHolds(p, es);
    RunKeepsHistory(p, Init(p), es, {}, {});
    assert {} + RaisedIn(es) == RaisedIn(es) && {} + ArrivedIn(es) == ArrivedIn(es);
  }

  lemma EntryOfSettled(s: State, c: Cid, raised: set<Cid>, arrived: set<Cid>)
    requires TableAgrees(s) && HistoryAgrees(s, raised, arrived)
    requires c in s.requests ==> Settled(s.requests[c].phase)
    ensures c in s.table.pending <==> c in raised && c !in arrived
  {
    if c in s.requests {
      var f, isPending := s.table.futures[c], c in s.table.pending;
      assert RequestAgrees(c, s.requests[c].phase, f, isPending, s.ledger.published);
    }
  }

  /** Main result: once all requests have settled, the entries left in the table are exactly those of
      the requests whose publish raised and to which no reply ever arrived. */
  lemma EntriesLeft(p: Params, es: seq<Event>)
    requires IsRun(p, Init(p), es)
    requires var s := Reached(p, es); forall c :: c in s.requests ==> Settled(s.requests[c].phase)
    ensures Reached(p, es).table.pending == RaisedIn(es) - ArrivedIn(es)
  {
    hide TableAgrees;
    hide HistoryAgrees;
    ReachedHistory(p, es);
    var s := Reached(p, es);
    hide Reached;
    forall c ensures c in s.table.pending <==> c in RaisedIn(es) && c !in ArrivedIn(es) {
      EntryOfSettled(s, c, RaisedIn(es), ArrivedIn(es));
    }
  }

  /** So the table is empty exactly if each request whose publish raised got a reply all the same. */
  lemma TableEmptyWhenSettled(p: Params, es: seq<Event>)
    requires IsRun(p, Init(p), es)
    requires var s := Reached(p, es); forall c :: c in s.requests ==> Settled(s.requests[c].phase)
    ensures Reached(p, es).table.pending == {} <==> RaisedIn(es) <= ArrivedIn(es)
  {
    EntriesLeft(p, es);
  }

  /** In particular if every publish succeeds. */
  lemma TableEmptyWithoutRaises(p: Params, es: seq<Event>)
    requires IsRun(p, Init(p), es) && RaisedIn(es) == {}
    requires var s := Reached(p, es); forall c :: c in s.requests ==> Settled(s.requests[c].phase)
    ensures Reached(p, es).table.pending == {}
  {
    EntriesLeft(p, es);
  }
}
