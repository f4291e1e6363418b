/** The loop of `consume_buffer_queue` that switches one buffer subscription on and off. */
module BufferWorker {
  import opened Wrappers

  datatype Operation = Consume | Cancel

  /** What the loop asks of the broker for the flag values read in its successive iterations. */
  function OperationsFor(flags: seq<bool>, subscribed: bool): seq<Operation> {
    if flags == [] then []
    else if flags[0] == subscribed then OperationsFor(flags[1..], subscribed)
    else [if flags[0] then Consume else Cancel] + OperationsFor(flags[1..], flags[0])
  }

  function Changes(flags: seq<bool>, last: bool): nat {
    if flags == [] then 0
    else (if flags[0] == last then 0 else 1) + Changes(flags[1..], flags[0])
  }

  /** Consume and cancel strictly alternate, and there is one operation per change of the flag. */
  lemma {:induction false} OperationsAlternate(flags: seq<bool>, subscribed: bool)
    ensures var ops := OperationsFor(flags, subscribed);
      && |ops| == Changes(flags, subscribed)
      && forall i :: 0 <= i < |ops| ==> ops[i] == if (i % 2 == 0) == subscribed then Cancel else Consume
  {
    if flags != [] {
      if flags[0] == subscribed {
        OperationsAlternate(flags[1..], subscribed);
      } else {
        OperationsAlternate(flags[1..], flags[0]);
        var rest := OperationsFor(flags[1..], flags[0]);
        var ops := OperationsFor(flags, subscribed);
        forall i | 0 < i < |ops|
          ensures ops[i] == if (i % 2 == 0) == subscribed then Cancel else Consume
        {
          assert ops[i] == rest[i - 1];
        }
      }
    }
  }

  lemma {:induction false} OperationsSplit(flags: seq<bool>, more: seq<bool>, subscribed: bool)
    ensures OperationsFor(flags + more, subscribed)
      == OperationsFor(flags, subscribed)
         + OperationsFor(more, if flags == [] then subscribed else flags[|flags| - 1])
  {
    if flags == [] {
      assert flags + more == more;
    } else {
      assert (flags + more)[1..] == flags[1..] + more;
      OperationsSplit(flags[1..], more, flags[0]);
    }
  }

  class Worker {
    var consumerTag: Option<nat>
    var live: set<nat>       // the broker's live subscriptions of this queue
    var nextTag: nat
    var log: seq<Operation>

    ghost predicate Valid()
      reads this
    {
      live == match consumerTag { case Some(tag) => {tag} case None => {} }
    }

    constructor ()
      ensures Valid() && consumerTag.None? && log == []
    {
      consumerTag, live, nextTag, log := None, {}, 0, [];
    }

    /** `flags[i]` is the flag as read in iteration `i`; the source's loop never ends. */
    method Run(flags: seq<bool>)
      requires Valid() && consumerTag.None? && log == []
      modifies this
      ensures Valid() && |live| <= 1
      ensures log == OperationsFor(flags, false)
      ensures flags != [] ==> consumerTag.Some? == flags[|flags| - 1]
    {
      for i := 0 to |flags|
        invariant Valid()
        invariant log == OperationsFor(flags[..i], false)
        invariant consumerTag.Some? == (i > 0 && flags[i - 1])
      {
        OperationsSplit(flags[..i], [flags[i]], false);
        assert flags[..i + 1] == flags[..i] + [flags[i]];
        if flags[i] && consumerTag.None? {
          consumerTag := Some(nextTag);
          live := live + {nextTag};
          nextTag := nextTag + 1;
          log := log + [Consume];
        } else if !flags[i] && consumerTag.Some? {
          live := live - {consumerTag.value};
          consumerTag := None;
          log := log + [Cancel];
        }
      }
      assert flags[..|flags|] == flags;
    }
  }
}
