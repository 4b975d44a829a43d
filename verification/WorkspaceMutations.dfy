/** Mutations of one workspace run one after the other; those of different workspaces
    do not wait for each other. */
module WorkspaceMutations {
  import opened Options

  type Id = string

  /** A call of `run`: its key and the earlier call whose settling it waits for. */
  datatype Call = Call(id: Id, after: Option<nat>)

  class WorkspaceMutations {
    var pending: map<Id, nat>
    var calls: seq<Call>
    var started: set<nat>
    var settled: set<nat>

    constructor ()
      ensures Valid() && calls == [] && started == {} && settled == {}
    {
      pending := map[];
      calls := [];
      started := {};
      settled := {};
    }

    /** The promise a call was chained to has settled. */
    predicate Ready(call: nat)
      requires call < |calls|
      reads this
    {
      calls[call].after.None? || calls[call].after.value in settled
    }

    ghost predicate Valid()
      reads this
    {
      && settled <= started
      && (forall t <- started :: t < |calls| && Ready(t))
      && (forall id <- pending :: pending[id] < |calls| && calls[pending[id]].id == id)
      && (forall t, id :: 0 <= t < |calls| && calls[t].id == id ==>
            if id in pending then t <= pending[id] else t in settled)
      && Linked()
    }

    /** Every call waits for the latest earlier one of its key, unless they have all settled. */
    ghost predicate Linked()
      reads this
    {
      forall t :: 0 <= t < |calls| ==> LinkedAt(t)
    }

    ghost predicate LinkedAt(t: nat)
      requires t < |calls|
      reads this
    {
      match calls[t].after
      case Some(p) => p < t && calls[p].id == calls[t].id && forall u :: p < u < t ==> calls[u].id != calls[t].id
      case None => forall u :: 0 <= u < t && calls[u].id == calls[t].id ==> u in settled
    }

    method Run(id: Id) returns (call: nat)
      requires Valid()
      modifies this`pending, this`calls
      ensures Valid()
      ensures call == |old(calls)| && |calls| == call + 1 && calls[..call] == old(calls)
      ensures calls[call].id == id
    {
      call := |calls|;
      calls := calls + [Call(id, if id in pending then Some(pending[id]) else None)];
      pending := pending[id := call];
      assert LinkedAt(call);
      forall t | 0 <= t < call ensures LinkedAt(t) {
        assert old(LinkedAt(t));
      }
    }

    /** The operation begins, some time after its call has become ready. */
    method Start(call: nat)
      requires Valid() && call < |calls| && Ready(call) && call !in started
      modifies this`started
      ensures Valid() && started == old(started) + {call}
    {
      started := started + {call};
      forall t | 0 <= t < |calls| ensures LinkedAt(t) {
        assert old(LinkedAt(t));
      }
    }

    /** The operation has resolved or rejected. */
    method Settle(call: nat)
      requires Valid() && call in started
      modifies this`settled
      ensures Valid() && settled == old(settled) + {call}
    {
      settled := settled + {call};
      forall t | 0 <= t < |calls| ensures LinkedAt(t) {
        assert old(LinkedAt(t));
      }
    }

    /** Runs after settling: forgets the key unless a later call has taken it over. */
    method Forget(call: nat)
      requires Valid() && call in settled
      modifies this`pending
      ensures Valid()
      ensures pending == if calls[call].id in old(pending) && old(pending)[calls[call].id] == call
                         then old(pending) - {calls[call].id} else old(pending)
    {
      var id := calls[call].id;
      if id in pending && pending[id] == call {
        EarlierSettled(call);
        pending := pending - {id};
      }
      forall t | 0 <= t < |calls| ensures LinkedAt(t) {
        assert old(LinkedAt(t));
      }
    }

    /** A ready call has no earlier call of its key that has not settled: operations of one
        key run in call order and never overlap, however many keys have been forgotten. */
    lemma {:induction false} EarlierSettled(call: nat)
      requires Valid() && call < |calls| && Ready(call)
      ensures forall u :: 0 <= u < call && calls[u].id == calls[call].id ==> u in settled
    {
      assert LinkedAt(call);
      if calls[call].after.Some? {
        EarlierSettled(calls[call].after.value);
      }
    }

    /** Of one key, at most one operation has started and not settled. */
    lemma OneAtATime(a: nat, b: nat)
      requires Valid() && a in started - settled && b in started - settled
      requires calls[a].id == calls[b].id
      ensures a == b
    {
      EarlierSettled(a);
      EarlierSettled(b);
    }

    /** An unstarted call whose predecessors of the same key have settled is ready: no key
        is blocked by another. */
    lemma Progress(call: nat)
      requires Valid() && call < |calls|
      requires forall u :: 0 <= u < call && calls[u].id == calls[call].id ==> u in settled
      ensures Ready(call)
    {
      assert LinkedAt(call);
    }
  }
}
