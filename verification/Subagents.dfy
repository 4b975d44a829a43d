/** Slots, identities and external work of subagents, from reservation to deletion. Each
    method is one stretch of the service between two awaits. */
module Subagents {
  import opened Options

  type ParentId = nat
  type RuntimeId = nat
  type SubagentId = nat
  type PreparationId = nat

  const MAX_CONCURRENT_SUBAGENTS_PER_PARENT: nat := 8

  datatype Preparation = Preparation(parent: ParentId, subagent: Option<SubagentId>, cancelled: bool)

  datatype Activation = Activation(
    parent: ParentId,
    runtime: RuntimeId,
    cancelRequested: bool,
    suppressSettlement: bool,
    terminalReached: bool)

  datatype Continuation = StillRunning | LimitReached | Begun

  // ----- What the bookkeeping should add up to -----

  function Count<K(==)>(counts: map<K, nat>, key: K): nat { if key in counts then counts[key] else 0 }

  /** Preparations of a parent that have not yet been handed over to an activation. */
  function Preparing(preparations: map<PreparationId, Preparation>, handed: set<PreparationId>, parent: ParentId): set<PreparationId> {
    set k <- preparations | k !in handed && preparations[k].parent == parent
  }

  /** Activations of a parent that still hold their slot. */
  function Running(active: map<SubagentId, Activation>, released: set<SubagentId>, parent: ParentId): set<SubagentId> {
    set s <- active | s !in released && active[s].parent == parent
  }

  function RunningOn(active: map<SubagentId, Activation>, released: set<SubagentId>, runtime: RuntimeId): set<SubagentId> {
    set s <- active | s !in released && active[s].runtime == runtime
  }

  function StopPreparations(preparations: map<PreparationId, Preparation>, parent: ParentId): (after: map<PreparationId, Preparation>)
    ensures after.Keys == preparations.Keys
    ensures forall k <- after :: after[k] == preparations[k].(cancelled := preparations[k].cancelled || preparations[k].parent == parent)
  {
    map k | k in preparations :: if preparations[k].parent == parent then preparations[k].(cancelled := true) else preparations[k]
  }

  /** Its settlement is suppressed; what has reached its end already is not cancelled any more. */
  function Stopped(a: Activation): Activation {
    a.(cancelRequested := a.cancelRequested || !a.terminalReached, suppressSettlement := true)
  }

  function StopActivations(active: map<SubagentId, Activation>, parent: ParentId): (after: map<SubagentId, Activation>)
    ensures after.Keys == active.Keys
    ensures forall s <- after :: active[s].parent != parent ==> after[s] == active[s]
    ensures forall s <- after :: active[s].parent == parent ==>
      && after[s].parent == parent && after[s].runtime == active[s].runtime
      && after[s].terminalReached == active[s].terminalReached && after[s].suppressSettlement
      && (after[s].cancelRequested <==> active[s].cancelRequested || !active[s].terminalReached)
  {
    map s | s in active ::
      if active[s].parent == parent then Stopped(active[s]) else active[s]
  }

  class SubagentService {
    var active: map<SubagentId, Activation>
    var preparations: map<PreparationId, Preparation>
    var activeCounts: map<ParentId, nat>
    var closing: bool
    // Of the runtimes that activations work for:
    var externalWorkCount: map<RuntimeId, nat>
    var disposed: set<RuntimeId>
    // Preparations past `startActivation`, activations past `release`, and the identities in use so far:
    ghost var handed: set<PreparationId>
    ghost var released: set<SubagentId>
    ghost var known: set<SubagentId>

    constructor ()
      ensures Valid() && active == map[] && preparations == map[] && activeCounts == map[] && !closing
    {
      active, preparations, activeCounts, closing := map[], map[], map[], false;
      externalWorkCount, disposed := map[], {};
      handed, released, known := {}, {}, {};
    }

    ghost predicate Valid()
      reads this
    {
      && handed <= preparations.Keys && released <= active.Keys && active.Keys <= known
      && Slots() && Identities() && ExternalWork()
    }

    /** Each count is the number of slots in use and within the limit; none is kept at zero. */
    ghost predicate Slots()
      reads this
    {
      && (forall p <- activeCounts :: 1 <= activeCounts[p] <= MAX_CONCURRENT_SUBAGENTS_PER_PARENT)
      && (forall p :: Count(activeCounts, p) == |Preparing(preparations, handed, p)| + |Running(active, released, p)|)
    }

    /** One preparation per identity, and none beside an activation unless it became that one. */
    ghost predicate Identities()
      reads this
    {
      && (forall k <- preparations :: preparations[k].subagent.Some? ==> preparations[k].subagent.value in known)
      && (forall k <- preparations :: k !in handed && preparations[k].subagent.Some? ==> preparations[k].subagent.value !in active)
      && (forall k <- preparations, l <- preparations ::
            k != l && preparations[k].subagent.Some? ==> preparations[k].subagent != preparations[l].subagent)
    }

    ghost predicate ExternalWork()
      reads this
    {
      forall r :: Count(externalWorkCount, r) == |RunningOn(active, released, r)|
        && (r in disposed ==> RunningOn(active, released, r) == {})
    }

    method Reserve(parent: ParentId) returns (ok: bool)
      modifies this`activeCounts
      ensures ok <==> !closing && Count(old(activeCounts), parent) < MAX_CONCURRENT_SUBAGENTS_PER_PARENT
      ensures activeCounts == if ok then old(activeCounts)[parent := Count(old(activeCounts), parent) + 1] else old(activeCounts)
    {
      if closing { return false; }
      var count := Count(activeCounts, parent);
      if count >= MAX_CONCURRENT_SUBAGENTS_PER_PARENT { return false; }
      activeCounts := activeCounts[parent := count + 1];
      return true;
    }

    method Release(parent: ParentId)
      modifies this`activeCounts
      ensures Count(old(activeCounts), parent) <= 1 ==> activeCounts == old(activeCounts) - {parent}
      ensures Count(old(activeCounts), parent) > 1 ==> activeCounts == old(activeCounts)[parent := old(activeCounts)[parent] - 1]
    {
      var count := Count(activeCounts, parent);
      if count <= 1 { activeCounts := activeCounts - {parent}; }
      else { activeCounts := activeCounts[parent := count - 1]; }
    }

    /** `launch` up to its first await: the slot is taken before anything else happens. */
    method BeginLaunch(id: PreparationId, parent: ParentId) returns (ok: bool)
      requires Valid() && id !in preparations
      modifies this`activeCounts, this`preparations
      ensures Valid()
      ensures ok <==> !closing && |Preparing(old(preparations), handed, parent)| + |Running(active, released, parent)| < MAX_CONCURRENT_SUBAGENTS_PER_PARENT
      ensures preparations == if ok then old(preparations)[id := Preparation(parent, None, false)] else old(preparations)
    {
      hide Preparing, Running, RunningOn;
      ok := Reserve(parent);
      if !ok { return; }
      preparations := preparations[id := Preparation(parent, None, false)];
      PreparationAdded(old(preparations), handed, id, Preparation(parent, None, false));
    }

    predicate SubagentActivationReserved(subagent: SubagentId)
      reads this
    {
      subagent in active || exists k <- preparations :: preparations[k].subagent == Some(subagent)
    }

    /** `continue` up to its first await. */
    method BeginContinue(id: PreparationId, parent: ParentId, subagent: SubagentId) returns (r: Continuation)
      requires Valid() && id !in preparations
      modifies this`activeCounts, this`preparations, this`known
      ensures Valid()
      ensures r == StillRunning <==> old(SubagentActivationReserved(subagent))
      ensures !old(SubagentActivationReserved(subagent)) ==>
        (r == LimitReached <==>
          closing || |Preparing(old(preparations), handed, parent)| + |Running(active, released, parent)| == MAX_CONCURRENT_SUBAGENTS_PER_PARENT)
      ensures preparations == if r == Begun then old(preparations)[id := Preparation(parent, Some(subagent), false)] else old(preparations)
    {
      if SubagentActivationReserved(subagent) { return StillRunning; }
      var ok := Reserve(parent);
      if !ok { return LimitReached; }
      AddContinued(id, parent, subagent);
      return Begun;
    }

    /** `beginPreparation` for a known identity, the slot being reserved already. */
    method AddContinued(id: PreparationId, parent: ParentId, subagent: SubagentId)
      requires id !in preparations && !SubagentActivationReserved(subagent)
      requires 1 <= Count(activeCounts, parent) && parent in activeCounts
      requires SlotsBut(parent) && handed <= preparations.Keys && released <= active.Keys && active.Keys <= known
      requires Identities() && ExternalWork()
      modifies this`preparations, this`known
      ensures Valid()
      ensures preparations == old(preparations)[id := Preparation(parent, Some(subagent), false)]
    {
      var added := Preparation(parent, Some(subagent), false);
      PreparationAdded(preparations, handed, id, added);
      preparations := preparations[id := added];
      known := known + {subagent};
    }

    /** The counts are right but for one slot of `parent` that is reserved and not yet in use. */
    ghost predicate SlotsBut(parent: ParentId)
      reads this
    {
      && (forall p <- activeCounts :: 1 <= activeCounts[p] <= MAX_CONCURRENT_SUBAGENTS_PER_PARENT)
      && (forall p :: Count(activeCounts, p) == |Preparing(preparations, handed, p)| + |Running(active, released, p)|
                                                + if p == parent then 1 else 0)
    }

    /** The storage has made a session with a fresh identity for a launch. */
    method Identify(id: PreparationId, subagent: SubagentId)
      requires Valid() && id in preparations && id !in handed && preparations[id].subagent.None?
      requires subagent !in known
      modifies this`preparations, this`known
      ensures Valid()
      ensures preparations == old(preparations)[id := old(preparations)[id].(subagent := Some(subagent))]
    {
      preparations := preparations[id := preparations[id].(subagent := Some(subagent))];
      known := known + {subagent};
      assert forall p :: Preparing(preparations, handed, p) == Preparing(old(preparations), handed, p);
    }

    /** The last check of a preparation and `startActivation`, without an await between: neither
        can the activation exist already nor the runtime be disposed. `changed` says that the
        runtime has another journal by now, or no session. */
    method HandOver(id: PreparationId, runtime: RuntimeId, changed: bool) returns (ok: bool)
      requires Valid() && id in preparations && id !in handed && preparations[id].subagent.Some?
      modifies this`active, this`externalWorkCount, this`handed
      ensures Valid()
      ensures ok <==> !preparations[id].cancelled && !closing && runtime !in disposed && !changed
      ensures var subagent := preparations[id].subagent.value;
        && subagent !in old(active)
        && active == if ok then old(active)[subagent := Activation(preparations[id].parent, runtime, false, false, false)] else old(active)
      ensures handed == if ok then old(handed) + {id} else old(handed)
      ensures externalWorkCount == if ok then old(externalWorkCount)[runtime := Count(old(externalWorkCount), runtime) + 1] else old(externalWorkCount)
    {
      if preparations[id].cancelled || closing || runtime in disposed || changed { return false; }
      var subagent := preparations[id].subagent.value;
      var activation := Activation(preparations[id].parent, runtime, false, false, false);
      active := active[subagent := activation];
      externalWorkCount := externalWorkCount[runtime := Count(externalWorkCount, runtime) + 1];
      handed := handed + {id};
      HandedOver(preparations, old(handed), id, old(active), released, activation);
      return true;
    }

    /** The catch and finally blocks of a preparation that has not been handed over. */
    method Abandon(id: PreparationId)
      requires Valid() && id in preparations && id !in handed
      modifies this`activeCounts, this`preparations
      ensures Valid() && preparations == old(preparations) - {id}
    {
      PreparationRemoved(preparations, handed, id);
      Release(preparations[id].parent);
      preparations := preparations - {id};
    }

    /** The finally block of a preparation whose activation has been started. */
    method FinishPreparation(id: PreparationId)
      requires Valid() && id in handed
      modifies this`preparations, this`handed
      ensures Valid() && preparations == old(preparations) - {id} && handed == old(handed) - {id}
    {
      preparations := preparations - {id};
      handed := handed - {id};
      assert forall p :: Preparing(preparations, handed, p) == Preparing(old(preparations), old(handed), p);
    }

    /** The run of an activation is over; what is left is writing it down. */
    method ReachEnd(subagent: SubagentId)
      requires Valid() && subagent in active && subagent !in released
      modifies this`active
      ensures Valid() && active == old(active)[subagent := old(active)[subagent].(terminalReached := true)]
    {
      hide Preparing, Running, RunningOn;
      active := active[subagent := active[subagent].(terminalReached := true)];
      SameSlots(preparations, preparations, handed, old(active), active, released);
    }

    /** An activation has ended and been flushed: its slot and its claim on the runtime go at once. */
    method End(subagent: SubagentId)
      requires Valid() && subagent in active && subagent !in released && active[subagent].terminalReached
      modifies this`activeCounts, this`externalWorkCount, this`released
      ensures Valid() && released == old(released) + {subagent}
      ensures Count(old(externalWorkCount), active[subagent].runtime) > 0
      ensures externalWorkCount == old(externalWorkCount)[active[subagent].runtime := old(externalWorkCount)[active[subagent].runtime] - 1]
    {
      hide Preparing, Running, RunningOn;
      var activation := active[subagent];
      ActivationReleased(active, released, subagent);
      Release(activation.parent);
      assert Count(externalWorkCount, activation.runtime) == |RunningOn(active, released, activation.runtime)| > 0;
      externalWorkCount := externalWorkCount[activation.runtime := externalWorkCount[activation.runtime] - 1];
      released := released + {subagent};
    }

    /** The identity is free again only after the final state has been published. */
    method Forget(subagent: SubagentId)
      requires Valid() && subagent in released
      modifies this`active, this`released
      ensures Valid() && active == old(active) - {subagent} && released == old(released) - {subagent}
    {
      active := active - {subagent};
      released := released - {subagent};
      assert forall p :: Running(active, released, p) == Running(old(active), old(released), p);
      assert forall r :: RunningOn(active, released, r) == RunningOn(old(active), old(released), r);
    }

    /** `beginParentAbort`: whatever of the parent has not reached its end is asked to stop, nothing
        is freed yet. */
    method AbortParent(parent: ParentId)
      requires Valid()
      modifies this`active, this`preparations
      ensures Valid()
      ensures preparations == StopPreparations(old(preparations), parent)
      ensures active == StopActivations(old(active), parent)
    {
      hide Preparing, Running, RunningOn, StopPreparations, StopActivations;
      preparations := StopPreparations(preparations, parent);
      active := StopActivations(active, parent);
      SameSlots(old(preparations), preparations, handed, old(active), active, released);
    }

    method Close()
      requires Valid()
      modifies this`active, this`preparations, this`closing
      ensures Valid() && closing
      ensures active.Keys == old(active).Keys && preparations.Keys == old(preparations).Keys
      ensures old(closing) ==> preparations == old(preparations) && active == old(active)
      ensures !old(closing) ==> forall k <- preparations :: preparations[k] == old(preparations)[k].(cancelled := true)
      ensures !old(closing) ==> forall s <- active :: active[s] == old(active)[s].(cancelRequested := true)
    {
      hide Preparing, Running, RunningOn;
      if closing { return; }
      closing := true;
      preparations := map k | k in preparations :: preparations[k].(cancelled := true);
      active := map s | s in active :: active[s].(cancelRequested := true);
      SameSlots(old(preparations), preparations, handed, old(active), active, released);
    }

    /** `dispose` refuses a busy runtime, whether by subagents or otherwise. */
    method Dispose(runtime: RuntimeId, busyOtherwise: bool) returns (ok: bool)
      requires Valid()
      modifies this`disposed
      ensures Valid()
      ensures ok <==> runtime in old(disposed) || (!busyOtherwise && RunningOn(active, released, runtime) == {})
      ensures disposed == if ok then old(disposed) + {runtime} else old(disposed)
    {
      if runtime in disposed { return true; }
      if busyOtherwise || Count(externalWorkCount, runtime) > 0 { return false; }
      disposed := disposed + {runtime};
      return true;
    }

    /** In every reachable state a parent has at most eight subagents in preparation or running,
        and an identity at most one: of the two lists, only a preparation that has already become
        the activation may appear beside it. */
    lemma WithinLimit(parent: ParentId, subagent: SubagentId)
      requires Valid()
      ensures forall k <- preparations, l <- preparations ::
        preparations[k].subagent == Some(subagent) && preparations[l].subagent == Some(subagent) ==> k == l
      ensures subagent in active ==> forall k <- preparations :: preparations[k].subagent == Some(subagent) ==> k in handed
      ensures |Preparing(preparations, handed, parent)| + |Running(active, released, parent)| <= 8
      ensures parent in activeCounts <==> Preparing(preparations, handed, parent) != {} || Running(active, released, parent) != {}
    {
      assert Count(activeCounts, parent) == |Preparing(preparations, handed, parent)| + |Running(active, released, parent)|;
    }

    /** No subagent runs on a disposed runtime. */
    lemma NeverDisposedUnder(subagent: SubagentId)
      requires Valid() && subagent in active && subagent !in released
      ensures active[subagent].runtime !in disposed
      ensures Count(externalWorkCount, active[subagent].runtime) > 0
    {
      var r := active[subagent].runtime;
      assert subagent in RunningOn(active, released, r);
      assert Count(externalWorkCount, r) == |RunningOn(active, released, r)|;
    }
  }

  // ----- How the sets change -----

  lemma PreparationAdded(preparations: map<PreparationId, Preparation>, handed: set<PreparationId>, id: PreparationId, added: Preparation)
    requires id !in preparations && id !in handed
    ensures var after := preparations[id := added];
      && Preparing(after, handed, added.parent) == Preparing(preparations, handed, added.parent) + {id}
      && |Preparing(after, handed, added.parent)| == |Preparing(preparations, handed, added.parent)| + 1
      && forall p :: p != added.parent ==> Preparing(after, handed, p) == Preparing(preparations, handed, p)
  {
    var after := preparations[id := added];
    assert Preparing(after, handed, added.parent) == Preparing(preparations, handed, added.parent) + {id};
  }

  lemma PreparationRemoved(preparations: map<PreparationId, Preparation>, handed: set<PreparationId>, id: PreparationId)
    requires id in preparations && id !in handed
    ensures var after, parent := preparations - {id}, preparations[id].parent;
      && |Preparing(preparations, handed, parent)| == |Preparing(after, handed, parent)| + 1
      && forall p :: p != parent ==> Preparing(after, handed, p) == Preparing(preparations, handed, p)
  {
    var after, parent := preparations - {id}, preparations[id].parent;
    assert Preparing(preparations, handed, parent) == Preparing(after, handed, parent) + {id};
  }

  lemma HandedOver(preparations: map<PreparationId, Preparation>, handed: set<PreparationId>, id: PreparationId,
                   active: map<SubagentId, Activation>, released: set<SubagentId>, activation: Activation)
    requires id in preparations && id !in handed && preparations[id].subagent.Some?
    requires preparations[id].subagent.value !in active && released <= active.Keys && activation.parent == preparations[id].parent
    ensures var s := preparations[id].subagent.value;
      var after, done := active[s := activation], handed + {id};
      && (forall p :: |Preparing(preparations, done, p)| + |Running(after, released, p)|
                   == |Preparing(preparations, handed, p)| + |Running(active, released, p)|)
      && (forall r :: r != activation.runtime ==> RunningOn(after, released, r) == RunningOn(active, released, r))
      && |RunningOn(after, released, activation.runtime)| == |RunningOn(active, released, activation.runtime)| + 1
  {
    var s := preparations[id].subagent.value;
    var after := active[s := activation];
    LeavesPreparing(preparations, handed, id);
    ActivationAdded(active, released, s, activation);
    hide Preparing, Running, RunningOn;
  }

  lemma LeavesPreparing(preparations: map<PreparationId, Preparation>, handed: set<PreparationId>, id: PreparationId)
    requires id in preparations && id !in handed
    ensures var done, parent := handed + {id}, preparations[id].parent;
      && |Preparing(preparations, handed, parent)| == |Preparing(preparations, done, parent)| + 1
      && forall p :: p != parent ==> Preparing(preparations, done, p) == Preparing(preparations, handed, p)
  {
    var done, parent := handed + {id}, preparations[id].parent;
    assert Preparing(preparations, handed, parent) == Preparing(preparations, done, parent) + {id};
  }

  lemma ActivationAdded(active: map<SubagentId, Activation>, released: set<SubagentId>, s: SubagentId, activation: Activation)
    requires s !in active && released <= active.Keys
    ensures var after := active[s := activation];
      && |Running(after, released, activation.parent)| == |Running(active, released, activation.parent)| + 1
      && |RunningOn(after, released, activation.runtime)| == |RunningOn(active, released, activation.runtime)| + 1
      && (forall p :: p != activation.parent ==> Running(after, released, p) == Running(active, released, p))
      && (forall r :: r != activation.runtime ==> RunningOn(after, released, r) == RunningOn(active, released, r))
  {
    hide Running, RunningOn;
    AddedRunning(active, released, s, activation);
    AddedRunningOn(active, released, s, activation);
  }

  lemma AddedRunning(active: map<SubagentId, Activation>, released: set<SubagentId>, s: SubagentId, activation: Activation)
    requires s !in active && released <= active.Keys
    ensures var after := active[s := activation];
      && |Running(after, released, activation.parent)| == |Running(active, released, activation.parent)| + 1
      && (forall p :: p != activation.parent ==> Running(after, released, p) == Running(active, released, p))
  {
    var after := active[s := activation];
    assert Running(after, released, activation.parent) == Running(active, released, activation.parent) + {s};
  }

  lemma AddedRunningOn(active: map<SubagentId, Activation>, released: set<SubagentId>, s: SubagentId, activation: Activation)
    requires s !in active && released <= active.Keys
    ensures var after := active[s := activation];
      && |RunningOn(after, released, activation.runtime)| == |RunningOn(active, released, activation.runtime)| + 1
      && (forall r :: r != activation.runtime ==> RunningOn(after, released, r) == RunningOn(active, released, r))
  {
    var after := active[s := activation];
    assert RunningOn(after, released, activation.runtime) == RunningOn(active, released, activation.runtime) + {s};
  }

  lemma ActivationReleased(active: map<SubagentId, Activation>, released: set<SubagentId>, s: SubagentId)
    requires s in active && s !in released
    ensures var done := released + {s};
      && |Running(active, released, active[s].parent)| == |Running(active, done, active[s].parent)| + 1
      && |RunningOn(active, released, active[s].runtime)| == |RunningOn(active, done, active[s].runtime)| + 1
      && (forall p :: p != active[s].parent ==> Running(active, done, p) == Running(active, released, p))
      && (forall r :: r != active[s].runtime ==> RunningOn(active, done, r) == RunningOn(active, released, r))
      && (forall r :: RunningOn(active, done, r) <= RunningOn(active, released, r))
  {
    var done := released + {s};
    assert Running(active, released, active[s].parent) == Running(active, done, active[s].parent) + {s};
    assert RunningOn(active, released, active[s].runtime) == RunningOn(active, done, active[s].runtime) + {s};
  }

  /** Asking to stop changes no slot. */
  lemma SameSlots(before: map<PreparationId, Preparation>, after: map<PreparationId, Preparation>, handed: set<PreparationId>,
                  active: map<SubagentId, Activation>, stopped: map<SubagentId, Activation>, released: set<SubagentId>)
    requires before.Keys == after.Keys && active.Keys == stopped.Keys
    requires forall k <- before :: before[k].parent == after[k].parent
    requires forall s <- active :: active[s].parent == stopped[s].parent && active[s].runtime == stopped[s].runtime
    ensures forall p :: Preparing(before, handed, p) == Preparing(after, handed, p)
    ensures forall p :: Running(active, released, p) == Running(stopped, released, p)
    ensures forall r :: RunningOn(active, released, r) == RunningOn(stopped, released, r)
  {}
}
