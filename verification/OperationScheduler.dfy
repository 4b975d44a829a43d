/** The keyed scheduler for side effects of the host. Queue objects and calls are numbered
    in the order they come into being; each method is one reaction of the scheduler. */
module OperationScheduler {
  import opened Options

  type Key = string

  /** `Done` tells whether the operation itself was run. */
  datatype Phase = Queued | Running | Done(ran: bool)

  /** What the caller's promise settles with. */
  datatype Settlement = RejectedWaiting | Resolved | Rejected

  /** A call with the queue object it joined and the call it is chained to there. */
  datatype Call = Call(
    key: Key,
    queue: nat,
    after: Option<nat>,
    phase: Phase,
    ok: bool,
    aborted: bool,
    finalized: bool,
    settled: Option<Settlement>)

  datatype QueueEntry = QueueEntry(key: Key, tail: Option<nat>, pending: nat)

  /** The calls a queue object still counts. */
  function Counted(calls: seq<Call>, queue: nat): set<nat> {
    set c | 0 <= c < |calls| && calls[c].queue == queue && !calls[c].finalized
  }

  /** `after` is the last of the first `n` calls that joined `queue`. */
  ghost predicate LastIn(calls: seq<Call>, n: nat, queue: nat, after: Option<nat>)
    requires n <= |calls|
  {
    match after
    case Some(p) => p < n && calls[p].queue == queue && forall u :: p < u < n ==> calls[u].queue != queue
    case None => forall u :: 0 <= u < n ==> calls[u].queue != queue
  }

  predicate Ready(calls: seq<Call>, c: nat)
    requires c < |calls|
  {
    calls[c].after.Some? ==> calls[c].after.value < |calls| && calls[calls[c].after.value].phase.Done?
  }

  /** How a call stands to the earlier ones: those that joined another object of the same key
      have been finalized. */
  ghost predicate Linked(calls: seq<Call>, c: nat)
    requires c < |calls|
  {
    && LastIn(calls, c, calls[c].queue, calls[c].after)
    && (!calls[c].phase.Queued? ==> Ready(calls, c))
    && forall u :: 0 <= u < c && calls[u].key == calls[c].key && calls[u].queue != calls[c].queue ==> calls[u].finalized
  }

  /** Settled at most once and in the right way: an abort rejects a waiting call at once, and
      exactly those calls never run. */
  predicate SettledRight(call: Call) {
    && (call.finalized ==> call.phase.Done?)
    && (call.settled == Some(RejectedWaiting) ==> call.aborted && (call.phase.Queued? || call.phase == Done(false)))
    && (call.phase.Queued? && call.aborted ==> call.settled == Some(RejectedWaiting))
    && (call.phase == Done(false) ==> call.settled == Some(RejectedWaiting))
    && (call.settled == Some(Resolved) ==> call.finalized && call.phase == Done(true) && call.ok)
    && (call.settled == Some(Rejected) ==> call.finalized && call.phase == Done(true) && !call.ok)
  }

  ghost predicate AllLinked(calls: seq<Call>) { forall c :: 0 <= c < |calls| ==> Linked(calls, c) }

  ghost predicate AllSettledRight(calls: seq<Call>) { forall c :: 0 <= c < |calls| ==> SettledRight(calls[c]) }

  class HostOperationScheduler {
    var queues: map<Key, nat>
    var entries: seq<QueueEntry>
    var calls: seq<Call>

    constructor ()
      ensures Valid() && queues == map[] && calls == []
    {
      queues, entries, calls := map[], [], [];
    }

    ghost predicate Valid()
      reads this
    {
      Consistent(queues, entries, calls)
    }

    static ghost predicate Consistent(queues: map<Key, nat>, entries: seq<QueueEntry>, calls: seq<Call>) {
      AllLinked(calls) && AllSettledRight(calls) && Queues(queues, entries, calls) && Counts(entries, calls)
    }

    /** The map holds one queue object per key, the only one that can have unfinished calls. */
    static ghost predicate Queues(queues: map<Key, nat>, entries: seq<QueueEntry>, calls: seq<Call>) {
      && (forall key <- queues :: queues[key] < |entries| && entries[queues[key]].key == key && entries[queues[key]].pending > 0)
      && (forall c :: 0 <= c < |calls| ==> calls[c].queue < |entries| && entries[calls[c].queue].key == calls[c].key)
      && (forall c :: 0 <= c < |calls| && !calls[c].finalized ==> calls[c].key in queues && queues[calls[c].key] == calls[c].queue)
    }

    static ghost predicate Counts(entries: seq<QueueEntry>, calls: seq<Call>) {
      forall q :: 0 <= q < |entries| ==>
        entries[q].pending == |Counted(calls, q)| && LastIn(calls, |calls|, q, entries[q].tail)
    }

    /** `enqueue`: joins the queue object of the key, or a new one. */
    method Enqueue(key: Key, aborted: bool) returns (c: nat)
      requires Valid()
      modifies this
      ensures Valid()
      ensures c == |old(calls)| && |calls| == c + 1 && calls[..c] == old(calls)
      ensures calls[c].key == key && calls[c].phase.Queued? && calls[c].aborted == aborted
      ensures calls[c].settled == if aborted then Some(RejectedWaiting) else None
    {
      hide Consistent;
      c := |calls|;
      var queue: nat;
      if key in queues {
        queue := queues[key];
        CurrentQueue(queues, entries, calls, key);
      } else {
        queue := |entries|;
        NewQueue(queues, entries, calls, key);
        entries := entries + [QueueEntry(key, None, 0)];
        queues := queues[key := queue];
      }
      var entry := entries[queue];
      var call := Call(key, queue, entry.tail, Queued, false, aborted, false, if aborted then Some(RejectedWaiting) else None);
      Joined(queues, entries, calls, call);
      entries := entries[queue := entry.(tail := Some(c), pending := entry.pending + 1)];
      calls := calls + [call];
    }

    /** The abort signal fires. */
    method Abort(c: nat)
      requires Valid() && c < |calls|
      modifies this`calls
      ensures Valid()
      ensures calls == old(calls)[c := old(calls)[c].(aborted := true,
        settled := if old(calls)[c].phase.Queued? then Some(RejectedWaiting) else old(calls)[c].settled)]
    {
      var call := calls[c];
      var after := call.(aborted := true, settled := if call.phase.Queued? then Some(RejectedWaiting) else call.settled);
      Updated(queues, entries, calls, c, after);
      calls := calls[c := after];
    }

    /** The call before it has run or been skipped; an aborted call is skipped. */
    method Start(c: nat)
      requires Valid() && c < |calls| && calls[c].phase.Queued? && Ready(calls, c)
      modifies this`calls
      ensures Valid()
      ensures calls == old(calls)[c := old(calls)[c].(phase := if old(calls)[c].aborted then Done(false) else Running)]
    {
      var call := calls[c];
      var after := call.(phase := if call.aborted then Done(false) else Running);
      Updated(queues, entries, calls, c, after);
      calls := calls[c := after];
    }

    /** The operation has resolved or rejected. */
    method Finish(c: nat, ok: bool)
      requires Valid() && c < |calls| && calls[c].phase.Running?
      modifies this`calls
      ensures Valid()
      ensures calls == old(calls)[c := old(calls)[c].(phase := Done(true), ok := ok)]
    {
      var after := calls[c].(phase := Done(true), ok := ok);
      Updated(queues, entries, calls, c, after);
      calls := calls[c := after];
    }

    /** The finally handler: the last counted call takes the queue object out of the map. */
    method Finalize(c: nat)
      requires Valid() && c < |calls| && calls[c].phase.Done? && !calls[c].finalized
      modifies this
      ensures Valid()
      ensures calls == old(calls)[c := old(calls)[c].(finalized := true)]
      ensures queues == if Counted(calls, calls[c].queue) == {} then old(queues) - {calls[c].key} else old(queues)
    {
      hide Consistent;
      var call := calls[c];
      Finalized(queues, entries, calls, c);
      entries := entries[call.queue := entries[call.queue].(pending := entries[call.queue].pending - 1)];
      calls := calls[c := call.(finalized := true)];
      if entries[call.queue].pending == 0 && call.key in queues && queues[call.key] == call.queue {
        queues := queues - {call.key};
      }
    }

    /** The caller learns the result, unless it has been rejected while waiting. */
    method Report(c: nat)
      requires Valid() && c < |calls| && calls[c].finalized && (calls[c].settled.None? || calls[c].settled == Some(RejectedWaiting))
      modifies this`calls
      ensures Valid()
      ensures calls == old(calls)[c := old(calls)[c].(settled :=
        if old(calls)[c].settled.Some? then old(calls)[c].settled else Some(if old(calls)[c].ok then Resolved else Rejected))]
    {
      var call := calls[c];
      var after := call.(settled := if call.settled.Some? then call.settled else Some(if call.ok then Resolved else Rejected));
      Updated(queues, entries, calls, c, after);
      calls := calls[c := after];
    }

    /** What has started found every earlier call of its key over: operations of one key run
        in the order they were enqueued and never two at a time. */
    lemma {:induction false} StartsInOrder(c: nat)
      requires Valid() && c < |calls| && !calls[c].phase.Queued?
      ensures forall u :: 0 <= u < c && calls[u].key == calls[c].key ==> calls[u].phase.Done?
    {
      assert Linked(calls, c);
      if calls[c].after.Some? {
        StartsInOrder(calls[c].after.value);
      }
      forall u | 0 <= u < c && calls[u].key == calls[c].key ensures calls[u].phase.Done? {
        if calls[u].queue != calls[c].queue {
          assert SettledRight(calls[u]);
        }
      }
    }

    lemma NoOverlap(a: nat, b: nat)
      requires Valid() && a < |calls| && b < |calls| && calls[a].key == calls[b].key
      requires calls[a].phase.Running? && calls[b].phase.Running?
      ensures a == b
    {
      StartsInOrder(a);
      StartsInOrder(b);
    }

    /** A call never waits for another key, nor for ever: when the earlier calls of its key are
        over, it is ready. */
    lemma WaitsOnlyForItsKey(c: nat)
      requires Valid() && c < |calls|
      requires forall u :: 0 <= u < c && calls[u].key == calls[c].key ==> calls[u].phase.Done?
      ensures Ready(calls, c)
    {
      assert Linked(calls, c);
    }

    /** All unfinished calls of a key are in one queue object, the one in the map. */
    lemma OneLiveQueue(a: nat, b: nat)
      requires Valid() && a < |calls| && b < |calls| && calls[a].key == calls[b].key
      requires !calls[a].finalized && !calls[b].finalized
      ensures calls[a].queue == calls[b].queue && calls[a].key in queues && queues[calls[a].key] == calls[a].queue
    {}

    /** A queue object is kept only while one of its calls is unfinished. */
    lemma KeptForACall(key: Key) returns (c: nat)
      requires Valid() && key in queues
      ensures c < |calls| && calls[c].key == key && calls[c].queue == queues[key] && !calls[c].finalized
    {
      var q := queues[key];
      assert entries[q].pending == |Counted(calls, q)|;
      assert Counted(calls, q) != {};
      c :| c in Counted(calls, q);
    }
  }

  // ----- How calls and counts change -----

  lemma CurrentQueue(queues: map<Key, nat>, entries: seq<QueueEntry>, calls: seq<Call>, key: Key)
    requires HostOperationScheduler.Consistent(queues, entries, calls) && key in queues
    ensures MayJoin(queues, entries, calls, key)
  {}

  /** Everything is in order but that the current queue object of `key` may be new and empty. */
  ghost predicate MayJoin(queues: map<Key, nat>, entries: seq<QueueEntry>, calls: seq<Call>, key: Key) {
    && AllLinked(calls) && AllSettledRight(calls) && HostOperationScheduler.Counts(entries, calls)
    && key in queues
    && (forall k <- queues :: queues[k] < |entries| && entries[queues[k]].key == k && (k != key ==> entries[queues[k]].pending > 0))
    && (forall c :: 0 <= c < |calls| ==> calls[c].queue < |entries| && entries[calls[c].queue].key == calls[c].key)
    && (forall c :: 0 <= c < |calls| && !calls[c].finalized ==> calls[c].key in queues && queues[calls[c].key] == calls[c].queue)
  }

  lemma NewQueue(queues: map<Key, nat>, entries: seq<QueueEntry>, calls: seq<Call>, key: Key)
    requires HostOperationScheduler.Consistent(queues, entries, calls) && key !in queues
    ensures MayJoin(queues[key := |entries|], entries + [QueueEntry(key, None, 0)], calls, key)
  {
    hide Linked, SettledRight;
    assert Counted(calls, |entries|) == {};
  }

  lemma Joined(queues: map<Key, nat>, entries: seq<QueueEntry>, calls: seq<Call>, call: Call)
    requires MayJoin(queues, entries, calls, call.key)
    requires call.queue == queues[call.key] && call.after == entries[call.queue].tail
    requires call.phase.Queued? && !call.finalized && SettledRight(call)
    ensures var entry := entries[call.queue];
      var joined := entries[call.queue := entry.(tail := Some(|calls|), pending := entry.pending + 1)];
      HostOperationScheduler.Consistent(queues, joined, calls + [call])
  {
    JoinedCounts(entries, calls, call);
    AddedLinks(calls, call);
    hide AllLinked, HostOperationScheduler.Counts, SettledRight;
    assert AllSettledRight(calls + [call]);
  }

  lemma JoinedCounts(entries: seq<QueueEntry>, calls: seq<Call>, call: Call)
    requires HostOperationScheduler.Counts(entries, calls) && call.queue < |entries| && !call.finalized
    ensures var entry := entries[call.queue];
      HostOperationScheduler.Counts(entries[call.queue := entry.(tail := Some(|calls|), pending := entry.pending + 1)], calls + [call])
  {
    hide Counted, LastIn;
    var after := calls + [call];
    forall q | 0 <= q < |entries|
      ensures |Counted(after, q)| == |Counted(calls, q)| + if q == call.queue then 1 else 0
      ensures LastIn(after, |after|, q, if q == call.queue then Some(|calls|) else entries[q].tail)
    {
      CountedSnoc(calls, call, q);
      LastInSnoc(calls, call, q, entries[q].tail);
    }
  }

  lemma CountedSnoc(calls: seq<Call>, call: Call, q: nat)
    requires !call.finalized
    ensures |Counted(calls + [call], q)| == |Counted(calls, q)| + if q == call.queue then 1 else 0
  {
    assert Counted(calls + [call], q) == Counted(calls, q) + if q == call.queue then {|calls|} else {};
  }

  lemma LastInSnoc(calls: seq<Call>, call: Call, q: nat, tail: Option<nat>)
    requires LastIn(calls, |calls|, q, tail)
    ensures LastIn(calls + [call], |calls + [call]|, q, if q == call.queue then Some(|calls|) else tail)
  {}

  /** A new call leaves the links of the others; its own is the tail of its queue object. */
  lemma AddedLinks(calls: seq<Call>, call: Call)
    requires AllLinked(calls)
    requires call.phase.Queued? && LastIn(calls, |calls|, call.queue, call.after)
    requires forall u :: 0 <= u < |calls| && calls[u].key == call.key && calls[u].queue != call.queue ==> calls[u].finalized
    ensures AllLinked(calls + [call])
  {
    var after := calls + [call];
    forall c | 0 <= c < |calls| ensures Linked(after, c) {
      assert Linked(calls, c);
    }
    assert Linked(after, |calls|);
  }

  /** Moving one call forward leaves everything in order. */
  lemma Updated(queues: map<Key, nat>, entries: seq<QueueEntry>, calls: seq<Call>, c: nat, call: Call)
    requires HostOperationScheduler.Consistent(queues, entries, calls)
    requires c < |calls| && call.key == calls[c].key && call.queue == calls[c].queue && call.after == calls[c].after
    requires call.finalized == calls[c].finalized && (calls[c].phase.Done? ==> call.phase.Done?)
    requires !call.phase.Queued? ==> !calls[c].phase.Queued? || Ready(calls, c)
    requires SettledRight(calls[c]) ==> SettledRight(call)
    ensures HostOperationScheduler.Consistent(queues, entries, calls[c := call])
  {
    var after := calls[c := call];
    SameLinks(calls, c, call);
    SameCounts(entries, calls, c, call);
    hide AllLinked, HostOperationScheduler.Counts, SettledRight;
    assert AllSettledRight(after);
  }

  lemma SameLinks(calls: seq<Call>, c: nat, call: Call)
    requires AllLinked(calls)
    requires c < |calls| && call.key == calls[c].key && call.queue == calls[c].queue && call.after == calls[c].after
    requires (calls[c].finalized ==> call.finalized) && (calls[c].phase.Done? ==> call.phase.Done?)
    requires !call.phase.Queued? ==> !calls[c].phase.Queued? || Ready(calls, c)
    ensures AllLinked(calls[c := call])
  {
    var after := calls[c := call];
    forall u | 0 <= u < |calls| ensures Linked(after, u) {
      assert Linked(calls, u);
      assert Linked(calls, c);
    }
  }

  lemma SameCounts(entries: seq<QueueEntry>, calls: seq<Call>, c: nat, call: Call)
    requires HostOperationScheduler.Counts(entries, calls)
    requires c < |calls| && call.queue == calls[c].queue && call.finalized == calls[c].finalized
    ensures HostOperationScheduler.Counts(entries, calls[c := call])
  {
    var after := calls[c := call];
    forall q | 0 <= q < |entries| ensures Counted(after, q) == Counted(calls, q) && LastIn(after, |after|, q, entries[q].tail) {
      assert LastIn(calls, |calls|, q, entries[q].tail);
    }
  }

  lemma Uncounted(entries: seq<QueueEntry>, calls: seq<Call>, c: nat)
    requires HostOperationScheduler.Counts(entries, calls) && c < |calls| && !calls[c].finalized && calls[c].queue < |entries|
    ensures var entry := entries[calls[c].queue];
      && entry.pending > 0
      && HostOperationScheduler.Counts(entries[calls[c].queue := entry.(pending := entry.pending - 1)], calls[c := calls[c].(finalized := true)])
  {
    var after := calls[c := calls[c].(finalized := true)];
    assert c in Counted(calls, calls[c].queue);
    forall q | 0 <= q < |entries|
      ensures Counted(after, q) == Counted(calls, q) - {c} && LastIn(after, |after|, q, entries[q].tail)
    {
      assert LastIn(calls, |calls|, q, entries[q].tail);
    }
    forall q | 0 <= q < |entries| && q != calls[c].queue ensures Counted(after, q) == Counted(calls, q) {
      assert c !in Counted(calls, q);
    }
  }

  /** With its last counted call a queue object leaves the map, and only then. */
  lemma Finalized(queues: map<Key, nat>, entries: seq<QueueEntry>, calls: seq<Call>, c: nat)
    requires HostOperationScheduler.Consistent(queues, entries, calls)
    requires c < |calls| && calls[c].phase.Done? && !calls[c].finalized
    ensures var key, q, after := calls[c].key, calls[c].queue, calls[c := calls[c].(finalized := true)];
      && key in queues && queues[key] == q && q < |entries| && entries[q].pending > 0
      && var fewer := entries[q := entries[q].(pending := entries[q].pending - 1)];
      && (fewer[q].pending == 0 <==> Counted(after, q) == {})
      && HostOperationScheduler.Consistent(if fewer[q].pending == 0 then queues - {key} else queues, fewer, after)
  {
    var key, q, after := calls[c].key, calls[c].queue, calls[c := calls[c].(finalized := true)];
    Uncounted(entries, calls, c);
    SameLinks(calls, c, calls[c].(finalized := true));
    var fewer := entries[q := entries[q].(pending := entries[q].pending - 1)];
    assert fewer[q].pending == |Counted(after, q)|;
    NoneCounted(after, q);
    hide AllLinked, HostOperationScheduler.Counts, Counted;
    assert AllSettledRight(after);
    QueuesFinalized(queues, entries, calls, c);
  }

  lemma NoneCounted(calls: seq<Call>, q: nat)
    ensures Counted(calls, q) == {} ==> forall u :: 0 <= u < |calls| && calls[u].queue == q ==> calls[u].finalized
  {
    forall u | 0 <= u < |calls| && calls[u].queue == q && !calls[u].finalized ensures Counted(calls, q) != {} {
      assert u in Counted(calls, q);
    }
  }

  lemma QueuesFinalized(queues: map<Key, nat>, entries: seq<QueueEntry>, calls: seq<Call>, c: nat)
    requires HostOperationScheduler.Queues(queues, entries, calls) && c < |calls| && !calls[c].finalized
    ensures var key, q, after := calls[c].key, calls[c].queue, calls[c := calls[c].(finalized := true)];
      && key in queues && queues[key] == q && q < |entries|
      && (entries[q].pending > 0 ==>
            var fewer := entries[q := entries[q].(pending := entries[q].pending - 1)];
            && (fewer[q].pending > 0 ==> HostOperationScheduler.Queues(queues, fewer, after))
            && ((forall u :: 0 <= u < |after| && after[u].queue == q ==> after[u].finalized) ==>
                  HostOperationScheduler.Queues(queues - {key}, fewer, after)))
  {}
}
