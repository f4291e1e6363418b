/** The router's table of pending replies: one future per correlation id, shared by every request
    coroutine and by the single reply consumer. */
module PendingTable {
  import opened Wrappers

  /** A fresh UUID, as a number. */
  type Cid = nat

  datatype Reply = Reply(correlationId: Cid, status: int, body: string)

  datatype FutureState = Undone | Resolved(reply: Reply) | Cancelled

  /** Every future ever registered, and the ids that are still keys of the table. */
  datatype Table = Table(futures: map<Cid, FutureState>, pending: set<Cid>)

  function Register(t: Table, cid: Cid): Table {
    Table(t.futures[cid := Undone], t.pending + {cid})
  }

  function OnReply(t: Table, reply: Reply): Table {
    var cid := reply.correlationId;
    if cid !in t.pending then t
    else if cid in t.futures && t.futures[cid].Undone? then
      Table(t.futures[cid := Resolved(reply)], t.pending - {cid})
    else t.(pending := t.pending - {cid})
  }

  /** `Future.cancel`: only an undone future changes. */
  function Cancel(t: Table, cid: Cid): Table {
    if cid in t.futures && t.futures[cid].Undone? then t.(futures := t.futures[cid := Cancelled]) else t
  }

  function Forget(t: Table, cid: Cid): Table {
    t.(pending := t.pending - {cid})
  }

  class Future {
    var state: FutureState

    constructor ()
      ensures state == Undone
    {
      state := Undone;
    }
  }

  class Router {
    var pending: map<Cid, Future>
    ghost var issued: map<Cid, Future>

    ghost predicate Valid()
      reads this
    {
      && (forall c :: c in pending ==> c in issued && issued[c] == pending[c])
      && (forall c, d :: c in issued && d in issued && c != d ==> issued[c] != issued[d])
    }

    ghost function View(): Table
      reads this, issued.Values
    {
      Table(map c | c in issued :: issued[c].state, pending.Keys)
    }

    constructor ()
      ensures Valid() && View() == Table(map[], {})
    {
      pending := map[];
      issued := map[];
    }

    /** The part of `proxy` that creates the future and enters it under a fresh id. */
    method Begin(cid: Cid) returns (future: Future)
      requires Valid() && cid !in issued
      modifies this
      ensures Valid() && fresh(future) && issued == old(issued)[cid := future]
      ensures View() == Register(old(View()), cid)
    {
      future := new Future();
      pending := pending[cid := future];
      issued := issued[cid := future];
    }

    /** `_on_reply` */
    method OnMessage(msg: Reply)
      requires Valid()
      modifies this`pending, pending.Values
      ensures Valid() && issued == old(issued)
      ensures View() == OnReply(old(View()), msg)
      ensures forall c :: c in issued && c != msg.correlationId ==> issued[c].state == old(issued[c].state)
    {
      if msg.correlationId in pending {
        var future := pending[msg.correlationId];
        assert future in pending.Values;
        pending := pending - {msg.correlationId};
        if future.state.Undone? {
          future.state := Resolved(msg);
        }
      }
    }

    /** `asyncio.wait_for` on expiry: cancel the future it was waiting for. */
    method CancelWait(cid: Cid, future: Future)
      requires Valid() && cid in issued && issued[cid] == future
      modifies future
      ensures Valid() && View() == Cancel(old(View()), cid)
    {
      if future.state.Undone? {
        future.state := Cancelled;
      }
    }

    /** The `TimeoutError` branch of `proxy`. */
    method DropExpired(cid: Cid)
      requires Valid()
      modifies this`pending
      ensures Valid() && View() == Forget(old(View()), cid)
    {
      pending := pending - {cid};
    }
  }
}
