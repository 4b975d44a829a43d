/** The queue of wake-ups for background work that has ended: what becomes of every
    notification, while drains work on snapshots and others enqueue, discard and close. */
module WakeQueue {
  import opened Options

  type Key = nat

  /** A notification is named by the number of the call that enqueued it. */
  type Ticket = nat

  datatype Stage = Resolving | Reserved

  /** What a drain is doing: with the entry of its snapshot under `key`, waiting for a drop to
      be reported, or at the head of its loop. */
  datatype Activity = Working(key: Key, stage: Stage) | Reporting | Looping

  /** `carried` holds the entries of the snapshot that have not been dealt with. */
  datatype Drain = Drain(carried: map<Key, Ticket>, activity: Activity)

  datatype Outcome = Delivered(ticket: Ticket) | Dropped(ticket: Ticket)

  /** `keys` lists the key of every notification ever enqueued. A notification leaves `pending`
      with its key after a delivery or a drop; or, and then it is in `left`, because a newer one
      of its key replaces it, its session is discarded or the queue is closed. */
  datatype Queue = Queue(
    keys: seq<Key>,
    pending: map<Key, Ticket>,
    nudges: nat,
    drain: Option<Drain>,
    closed: bool,
    outcomes: seq<Outcome>,
    left: set<Ticket>)

  datatype Resolution = Fails | Defer | Blocked | NoReservation | Drop | Reserve

  datatype Event =
    | Enqueue(key: Key)
    | Nudge
    | Discard(keys: set<Key>)       // of the session that is being deleted
    | Close
    | StartDrain
    | Take(key: Key)                // the loop goes on with this entry
    | EndDrain                      // no entry is left
    | Resolve(resolution: Resolution)
    | Reported(ok: bool)
    | Wake(blocked: bool, fails: bool)

  function Under(pending: map<Key, Ticket>, keys: set<Key>): set<Ticket> {
    set key <- pending | key in keys :: pending[key]
  }

  /** The entry at work is done with, and leaves `pending` or not. */
  function Done(q: Queue, d: Drain, activity: Activity): Queue
    requires d.activity.Working?
  {
    q.(drain := Some(Drain(d.carried - {d.activity.key}, activity)))
  }

  predicate AtWork(q: Queue, stage: Stage) {
    q.drain.Some? && q.drain.value.activity.Working? && q.drain.value.activity.stage == stage
      && q.drain.value.activity.key in q.drain.value.carried
  }

  /** The key and the notification of the entry at work. */
  function WorkingKey(q: Queue): Key
    requires q.drain.Some? && q.drain.value.activity.Working?
  {
    q.drain.value.activity.key
  }

  function Carried(q: Queue): Ticket
    requires AtWork(q, Resolving) || AtWork(q, Reserved)
  {
    q.drain.value.carried[WorkingKey(q)]
  }

  function Next(q: Queue, event: Event): Queue {
    match event
    case Enqueue(key) =>
      if q.closed then q
      else q.(keys := q.keys + [key], pending := q.pending[key := |q.keys|], nudges := q.nudges + 1,
              left := q.left + Under(q.pending, {key}))
    case Nudge => if q.closed then q else q.(nudges := q.nudges + 1)
    case Discard(keys) => q.(pending := q.pending - keys, left := q.left + Under(q.pending, keys))
    case Close =>
      if q.closed then q
      else q.(closed := true, pending := map[], left := q.left + Under(q.pending, q.pending.Keys))
    case StartDrain =>
      if q.drain.Some? || q.nudges == 0 then q
      else q.(nudges := q.nudges - 1, drain := Some(Drain(q.pending, Looping)))
    case Take(key) =>
      if q.drain.None? || !q.drain.value.activity.Looping? || key !in q.drain.value.carried then q
      else if q.closed then q.(drain := None)
      else q.(drain := Some(q.drain.value.(activity := Working(key, Resolving))))
    case EndDrain =>
      if q.drain.Some? && q.drain.value.activity.Looping? && (q.drain.value.carried == map[] || q.closed)
      then q.(drain := None) else q
    case Resolve(resolution) =>
      if !AtWork(q, Resolving) then q
      else
        var d := q.drain.value;
        if q.closed && !resolution.Fails? then q.(drain := None)
        else if resolution.Drop? then
          Done(q, d, Reporting).(pending := q.pending - {WorkingKey(q)}, outcomes := q.outcomes + [Dropped(Carried(q))])
        else if resolution.Reserve? then q.(drain := Some(d.(activity := Working(WorkingKey(q), Reserved))))
        else Done(q, d, Looping)
    case Reported(ok) =>
      if q.drain.None? || !q.drain.value.activity.Reporting? then q
      else q.(drain := if ok then Some(q.drain.value.(activity := Looping)) else None)
    case Wake(blocked, fails) =>
      if !AtWork(q, Reserved) then q
      else
        var d := q.drain.value;
        if q.closed || blocked || fails then Done(q, d, Looping)
        else Done(q, d, Looping).(pending := q.pending - {WorkingKey(q)}, outcomes := q.outcomes + [Delivered(Carried(q))])
  }

  function Run(events: seq<Event>): Queue {
    if events == [] then Initial() else Next(Run(events[..|events| - 1]), events[|events| - 1])
  }

  function Initial(): Queue { Queue([], map[], 0, None, false, [], {}) }

  // ----- What every run keeps -----

  predicate Settled(outcomes: seq<Outcome>, n: Ticket) { Delivered(n) in outcomes || Dropped(n) in outcomes }

  predicate IsPending(q: Queue, n: Ticket)
    requires n < |q.keys|
  {
    q.keys[n] in q.pending && q.pending[q.keys[n]] == n
  }

  /** What became of a notification can be told: it waits, was delivered, was reported as
      dropped, or left for a newer one, with its session or with the queue. */
  predicate Accounted(q: Queue, n: Ticket)
    requires n < |q.keys|
  {
    IsPending(q, n) || Settled(q.outcomes, n) || n in q.left
  }

  ghost predicate PendingRight(q: Queue) {
    forall key <- q.pending ::
      var n := q.pending[key]; n < |q.keys| && q.keys[n] == key && !Settled(q.outcomes, n) && n !in q.left
  }

  /** A carried notification has not been settled, and where it is no longer pending it is
      known why. */
  ghost predicate CarriedRight(q: Queue, carried: map<Key, Ticket>) {
    forall key <- carried ::
      var n := carried[key]; n < |q.keys| && q.keys[n] == key && !Settled(q.outcomes, n) && (IsPending(q, n) || n in q.left)
  }

  /** No notification is settled twice. */
  ghost predicate OutcomesRight(q: Queue) {
    && (forall o <- q.outcomes :: o.ticket < |q.keys|)
    && (forall i, j :: 0 <= i < j < |q.outcomes| ==> q.outcomes[i].ticket != q.outcomes[j].ticket)
    && (forall n <- q.left :: n < |q.keys|)
  }

  ghost predicate Inv(q: Queue) {
    && PendingRight(q) && OutcomesRight(q)
    && (q.drain.Some? ==> CarriedRight(q, q.drain.value.carried))
    && (q.drain.Some? && q.drain.value.activity.Working? ==> q.drain.value.activity.key in q.drain.value.carried)
  }

  /** The delivery or the drop of an entry whose key is pending for a newer notification. */
  predicate LosingStep(q: Queue, event: Event) {
    && Settles(q, event)
    && WorkingKey(q) in q.pending && q.pending[WorkingKey(q)] != Carried(q)
  }

  predicate Loses(events: seq<Event>) {
    events != [] && (Loses(events[..|events| - 1]) || LosingStep(Run(events[..|events| - 1]), events[|events| - 1]))
  }

  lemma SettledSnoc(outcomes: seq<Outcome>, o: Outcome, n: Ticket)
    ensures Settled(outcomes + [o], n) <==> Settled(outcomes, n) || o.ticket == n
  {}

  /** The entry at work is delivered or dropped, and its key deleted. */
  function Settle(q: Queue, o: Outcome, activity: Activity): Queue
    requires AtWork(q, Resolving) || AtWork(q, Reserved)
  {
    Done(q, q.drain.value, activity).(pending := q.pending - {WorkingKey(q)}, outcomes := q.outcomes + [o])
  }

  predicate Settles(q: Queue, event: Event) {
    && !q.closed
    && ((event == Wake(false, false) && AtWork(q, Reserved)) || (event == Resolve(Drop) && AtWork(q, Resolving)))
  }

  lemma SettlesIs(q: Queue, event: Event)
    ensures Settles(q, event) && event.Wake? ==> Next(q, event) == Settle(q, Delivered(Carried(q)), Looping)
    ensures Settles(q, event) && event.Resolve? ==> Next(q, event) == Settle(q, Dropped(Carried(q)), Reporting)
    ensures !Settles(q, event) ==> Next(q, event).outcomes == q.outcomes
  {}

  lemma SettleKeepsInv(q: Queue, o: Outcome, activity: Activity)
    requires Inv(q) && (AtWork(q, Resolving) || AtWork(q, Reserved)) && o.ticket == Carried(q) && !activity.Working?
    ensures Inv(Settle(q, o, activity))
  {
    hide Settled;
    var after := Settle(q, o, activity);
    forall n: Ticket ensures Settled(after.outcomes, n) <==> Settled(q.outcomes, n) || o.ticket == n {
      SettledSnoc(q.outcomes, o, n);
    }
    assert PendingRight(after);
    forall i, j | 0 <= i < j < |after.outcomes| ensures after.outcomes[i].ticket != after.outcomes[j].ticket {
      if j == |q.outcomes| { SettledAt(q.outcomes, i); }
    }
  }

  lemma SettledAt(outcomes: seq<Outcome>, i: nat)
    requires i < |outcomes|
    ensures Settled(outcomes, outcomes[i].ticket)
  {
    assert outcomes[i] in outcomes;
  }

  lemma StepKeepsInv(q: Queue, event: Event)
    requires Inv(q)
    ensures Inv(Next(q, event))
  {
    if Settles(q, event) {
      SettlesIs(q, event);
      SettleKeepsInv(q, if event.Wake? then Delivered(Carried(q)) else Dropped(Carried(q)), if event.Wake? then Looping else Reporting);
    } else if event.Enqueue? {
      EnqueueKeepsInv(q, event.key);
    } else if event.Discard? || event.Close? || event.StartDrain? {
      LeavingKeepsInv(q, event);
    } else {
      MovingKeepsInv(q, event);
    }
    hide Next, Inv;
  }

  lemma LeavingKeepsInv(q: Queue, event: Event)
    requires Inv(q) && (event.Discard? || event.Close? || event.StartDrain?)
    ensures Inv(Next(q, event))
  {
    hide Settled;
  }

  /** The drain goes on without settling anything. */
  lemma MovingKeepsInv(q: Queue, event: Event)
    requires Inv(q) && !Settles(q, event)
    requires event.Nudge? || event.Take? || event.EndDrain? || event.Resolve? || event.Reported? || event.Wake?
    ensures Inv(Next(q, event))
  {
    hide Settled;
  }

  lemma UnsettledNew(q: Queue)
    requires OutcomesRight(q)
    ensures !Settled(q.outcomes, |q.keys|)
  {}

  lemma EnqueueKeepsInv(q: Queue, key: Key)
    requires Inv(q)
    ensures Inv(Next(q, Enqueue(key)))
  {
    UnsettledNew(q);
    hide Settled;
  }

  lemma {:induction false} RunKeepsInv(events: seq<Event>)
    ensures Inv(Run(events))
  {
    if events != [] {
      RunKeepsInv(events[..|events| - 1]);
      StepKeepsInv(Run(events[..|events| - 1]), events[|events| - 1]);
    }
  }

  /** In every run a notification is delivered or dropped at most once, and does not wait any
      more after that. */
  lemma SettledOnce(events: seq<Event>, i: nat, j: nat)
    requires var q := Run(events); i < j < |q.outcomes|
    ensures var q := Run(events); var n := q.outcomes[i].ticket;
      n != q.outcomes[j].ticket && n < |q.keys| && !IsPending(q, n)
  {
    RunKeepsInv(events);
    SettledAt(Run(events).outcomes, i);
  }

  /** Exactly when a step loses a notification, and which. */
  lemma LostIff(q: Queue, event: Event, n: Ticket)
    requires Inv(q) && n < |q.keys| && Accounted(q, n)
    ensures n < |Next(q, event).keys|
    ensures !Accounted(Next(q, event), n) <==> LosingStep(q, event) && q.pending[WorkingKey(q)] == n
  {
    SettlesIs(q, event);
    if Settles(q, event) {
      SettledSnoc(q.outcomes, if event.Wake? then Delivered(Carried(q)) else Dropped(Carried(q)), n);
    }
    hide Settled;
  }

  /** A notification once lost is never accounted for again. */
  lemma LostForever(q: Queue, event: Event, n: Ticket)
    requires Inv(q) && n < |q.keys| && !Accounted(q, n)
    ensures n < |Next(q, event).keys| && !Accounted(Next(q, event), n)
  {
    SettlesIs(q, event);
    if Settles(q, event) {
      SettledSnoc(q.outcomes, if event.Wake? then Delivered(Carried(q)) else Dropped(Carried(q)), n);
    }
    hide Settled;
  }

  /** The new notification of an enqueue waits. */
  lemma NewIsAccounted(q: Queue, event: Event)
    requires Inv(q)
    ensures |q.keys| <= |Next(q, event).keys| <= |q.keys| + 1
    ensures forall n :: |q.keys| <= n < |Next(q, event).keys| ==> Accounted(Next(q, event), n)
  {}

  /** The exact condition over runs: every notification ever enqueued is accounted for, if and
      only if no entry was delivered or dropped while its key was pending for a newer one. */
  lemma {:induction false} AllAccountedIff(events: seq<Event>)
    ensures AllAccounted(Run(events)) <==> !Loses(events)
  {
    if events != [] {
      var init, event := events[..|events| - 1], events[|events| - 1];
      AllAccountedIff(init);
      RunKeepsInv(init);
      AccountedStep(Run(init), event);
    }
  }

  ghost predicate AllAccounted(q: Queue) { forall n :: 0 <= n < |q.keys| ==> Accounted(q, n) }

  lemma AccountedStep(q: Queue, event: Event)
    requires Inv(q)
    ensures AllAccounted(Next(q, event)) <==> AllAccounted(q) && !LosingStep(q, event)
  {
    hide Accounted;
    NewIsAccounted(q, event);
    var after := Next(q, event);
    if !AllAccounted(q) {
      var n :| 0 <= n < |q.keys| && !Accounted(q, n);
      LostForever(q, event, n);
    } else {
      forall n | 0 <= n < |q.keys| ensures Accounted(after, n) <==> !(LosingStep(q, event) && q.pending[WorkingKey(q)] == n) {
        LostIff(q, event, n);
      }
      if LosingStep(q, event) {
        var n := q.pending[WorkingKey(q)];
        assert n < |q.keys| && !Accounted(after, n);
      }
    }
  }

  /** A drain that comes to a waiting notification, from the nudge to the answer: it takes the nudge
      and a snapshot of what waits, delivers if there is a place and nothing is in the way, drops what
      is to be dropped, and leaves it waiting for the next nudge otherwise. The other entries are not
      touched, and what is in the snapshot is dealt with one by one. */
  lemma DrainOutcome(q: Queue, key: Key, resolution: Resolution, blocked: bool, fails: bool)
    requires Inv(q) && q.drain.None? && !q.closed && key in q.pending
    ensures var asked := Next(Next(Next(Next(q, Nudge), StartDrain), Take(key)), Resolve(resolution));
      var answered := if resolution.Reserve? then Next(asked, Wake(blocked, fails)) else asked;
      var outcome := if resolution.Drop? then [Dropped(q.pending[key])]
        else if resolution.Reserve? && !blocked && !fails then [Delivered(q.pending[key])] else [];
      && answered.outcomes == q.outcomes + outcome
      && answered.pending == (if outcome == [] then q.pending else q.pending - {key})
      && answered.drain == Some(Drain(q.pending - {key}, if resolution.Drop? then Reporting else Looping))
      && answered.nudges == q.nudges && answered.keys == q.keys && answered.left == q.left && !answered.closed
  {
    assert q.outcomes + [] == q.outcomes;
  }

  // ----- When the newer one comes -----

  /** A key is enqueued again after a drain has taken its snapshot and before it has dealt with
      the entry. */
  predicate EnqueuesAgain(q: Queue, event: Event) {
    event.Enqueue? && !q.closed && q.drain.Some? && event.key in q.drain.value.carried
  }

  predicate EnqueuesAgainIn(events: seq<Event>) {
    events != [] && (EnqueuesAgainIn(events[..|events| - 1]) || EnqueuesAgain(Run(events[..|events| - 1]), events[|events| - 1]))
  }

  /** Carried entries are the newest of their keys. */
  ghost predicate Newest(q: Queue) {
    q.drain.Some? ==> forall key <- q.drain.value.carried :: key in q.pending ==> q.pending[key] == q.drain.value.carried[key]
  }

  /** Where no key is enqueued again while a drain carries it nothing is lost. */
  lemma {:induction false} NothingLost(events: seq<Event>)
    requires !EnqueuesAgainIn(events)
    ensures Newest(Run(events)) && !Loses(events)
    ensures AllAccounted(Run(events))
  {
    if events != [] {
      var init, event := events[..|events| - 1], events[|events| - 1];
      NothingLost(init);
      RunKeepsInv(init);
      NewestStep(Run(init), event);
    }
    AllAccountedIff(events);
  }

  lemma NewestStep(q: Queue, event: Event)
    requires Inv(q) && Newest(q) && !EnqueuesAgain(q, event)
    ensures Newest(Next(q, event)) && !LosingStep(q, event)
  {}

  /** And otherwise something can be: what is enqueued under the key at work is lost with the
      next delivery or drop, in every state. */
  lemma EnqueuedAgainIsLost(q: Queue, event: Event)
    requires Inv(q) && !q.closed
    requires (event == Wake(false, false) && AtWork(q, Reserved)) || (event == Resolve(Drop) && AtWork(q, Resolving))
    ensures var after := Next(Next(q, Enqueue(WorkingKey(q))), event);
      |q.keys| < |after.keys| && !Accounted(after, |q.keys|)
  {
    var again := Next(q, Enqueue(WorkingKey(q)));
    EnqueueKeepsInv(q, WorkingKey(q));
    assert LosingStep(again, event) && again.pending[WorkingKey(again)] == |q.keys|;
    LostIff(again, event, |q.keys|);
  }

  // ----- Both ways to lose one happen -----

  lemma RunSnoc(events: seq<Event>, event: Event)
    ensures Run(events + [event]) == Next(Run(events), event)
  {
    assert (events + [event])[..|events|] == events;
  }

  /** A drain has a place for the entry under `key`, or is still asking where it belongs. */
  lemma AtWorkIsReachable(key: Key, stage: Stage) returns (events: seq<Event>)
    ensures var q := Run(events); Inv(q) && !q.closed && AtWork(q, stage) && WorkingKey(q) == key
  {
    hide Run, Inv;
    var one, two := [] + [Enqueue(key)], [] + [Enqueue(key)] + [StartDrain];
    RunNothing();
    RunSnoc([], Enqueue(key));
    RunSnoc(one, StartDrain);
    RunSnoc(two, Take(key));
    events := two + [Take(key)];
    assert Run(two) == Queue([key], map[key := 0], 0, Some(Drain(map[key := 0], Looping)), false, [], {});
    if stage.Reserved? {
      RunSnoc(events, Resolve(Reserve));
      events := events + [Resolve(Reserve)];
    }
    RunKeepsInv(events);
  }

  lemma RunNothing()
    ensures Run([]) == Initial()
  {}

  /** So a delivery and a drop can each lose a notification: the one enqueued while the entry of
      its key was at work. */
  lemma LossIsReachable(key: Key, byDrop: bool) returns (events: seq<Event>)
    ensures Loses(events) && !AllAccounted(Run(events))
    ensures events != [] && events[|events| - 1] == if byDrop then Resolve(Drop) else Wake(false, false)
  {
    var before := AtWorkIsReachable(key, if byDrop then Resolving else Reserved);
    var last := if byDrop then Resolve(Drop) else Wake(false, false);
    RunSnoc(before, Enqueue(key));
    RunSnoc(before + [Enqueue(key)], last);
    EnqueuedAgainIsLost(Run(before), last);
    events := before + [Enqueue(key)] + [last];
    AllAccountedIff(events);
    hide Run, Loses;
  }

  // ----- Drains come to an end -----

  predicate OfTheDrain(event: Event) {
    event.Take? || event.EndDrain? || event.Resolve? || event.Reported? || event.Wake?
  }

  function Rank(activity: Activity): nat {
    match activity
    case Reporting => 2
    case Looping => 1
    case Working(_, _) => 0
  }

  /** A running drain can always finish by steps of its own, and leaves what it does not get to deliver
      where it was; the queue is ready for the next one then. */
  lemma {:induction false} DrainFinishes(q: Queue) returns (events: seq<Event>)
    requires Inv(q) && q.drain.Some?
    ensures forall e <- events :: OfTheDrain(e)
    ensures var after := Continue(q, events);
      after.drain.None? && after.pending == q.pending && after.outcomes == q.outcomes && after.left == q.left
    decreases |q.drain.value.carried|, Rank(q.drain.value.activity)
  {
    hide Inv, Continue;
    var d := q.drain.value;
    var event := EndDrain;
    if d.activity.Working? {
      event := if d.activity.stage.Resolving? then Resolve(Defer) else Wake(true, false);
      KeyIsCarried(q);
      WorkingStep(q, event);
    } else {
      if d.activity.Reporting? { event := Reported(true); }
      else if d.carried != map[] { var key :| key in d.carried; event := Take(key); }
      OtherStep(q, event);
    }
    StepKeepsInv(q, event);
    hide Next;
    var after := Next(q, event);
    var rest := [];
    if after.drain.Some? {
      rest := DrainFinishes(after);
    } else {
      ContinueNothing(after);
    }
    ContinueCons(q, event, rest);
    events := [event] + rest;
  }

  lemma KeyIsCarried(q: Queue)
    requires Inv(q)
    ensures q.drain.Some? && q.drain.value.activity.Working? ==> q.drain.value.activity.key in q.drain.value.carried
  {}

  lemma OneLess(carried: map<Key, Ticket>, key: Key)
    requires key in carried
    ensures |carried - {key}| < |carried|
  {
    assert carried.Keys == (carried - {key}).Keys + {key};
  }

  /** The drain is nearer to its end, and has done nothing to what waits. */
  predicate Nearer(q: Queue, after: Queue)
    requires q.drain.Some?
  {
    && after.pending == q.pending && after.outcomes == q.outcomes && after.left == q.left
    && (after.drain.Some? ==>
          var d, e := q.drain.value, after.drain.value;
          |e.carried| < |d.carried| || (e.carried == d.carried && Rank(e.activity) < Rank(d.activity)))
  }

  lemma WorkingStep(q: Queue, event: Event)
    requires q.drain.Some? && q.drain.value.activity.Working? && q.drain.value.activity.key in q.drain.value.carried
    requires event == if q.drain.value.activity.stage.Resolving? then Resolve(Defer) else Wake(true, false)
    ensures Nearer(q, Next(q, event))
  {
    OneLess(q.drain.value.carried, q.drain.value.activity.key);
  }

  lemma OtherStep(q: Queue, event: Event)
    requires q.drain.Some? && !q.drain.value.activity.Working?
    requires if q.drain.value.activity.Reporting? then event == Reported(true)
      else if q.drain.value.carried == map[] then event == EndDrain else event.Take? && event.key in q.drain.value.carried
    ensures Nearer(q, Next(q, event))
  {}

  // ----- After closing -----

  /** Once closed, a queue has nothing waiting any more and delivers and drops nothing, whatever
      happens afterwards; what was waiting has left with it. */
  lemma {:induction false} ClosedForGood(q: Queue, events: seq<Event>)
    requires Inv(q) && !q.closed
    ensures var after := Continue(Next(q, Close), events);
      && after.closed && after.pending == map[] && after.outcomes == q.outcomes && after.keys == q.keys
      && forall n: Ticket :: n < |q.keys| && IsPending(q, n) ==> n in after.left
  {
    if events == [] {
      ContinueNothing(Next(q, Close));
    } else {
      ClosedForGood(q, events[..|events| - 1]);
      ClosedStep(Continue(Next(q, Close), events[..|events| - 1]), events[|events| - 1]);
      hide Next;
    }
  }

  lemma ClosedStep(q: Queue, event: Event)
    requires q.closed && q.pending == map[]
    ensures var after := Next(q, event);
      after.closed && after.pending == map[] && after.outcomes == q.outcomes && after.keys == q.keys && q.left <= after.left
  {}

  // ----- What left can still be delivered -----

  /** The queue as it goes on from any state. */
  function Continue(q: Queue, events: seq<Event>): Queue {
    if events == [] then q else Next(Continue(q, events[..|events| - 1]), events[|events| - 1])
  }

  lemma {:induction false} ContinueCons(q: Queue, event: Event, events: seq<Event>)
    ensures Continue(q, [event] + events) == Continue(Next(q, event), events)
  {
    hide Next;
    if events == [] {
      assert [event] + events == [event] && [event][..0] == [];
    } else {
      ContinueCons(q, event, events[..|events| - 1]);
      assert ([event] + events)[..|events|] == [event] + events[..|events| - 1];
    }
  }

  /** The running drain has the notification in its snapshot and has not dealt with it. */
  predicate Carries(q: Queue, n: Ticket)
    requires n < |q.keys|
  {
    q.drain.Some? && q.keys[n] in q.drain.value.carried && q.drain.value.carried[q.keys[n]] == n
  }

  /** The next step of a drain that is to deliver what it carries under `key`. */
  function Towards(q: Queue, key: Key): Event
    requires q.drain.Some?
  {
    match q.drain.value.activity
    case Looping => Take(key)
    case Reporting => Reported(true)
    case Working(k, Resolving) => Resolve(if k == key then Reserve else Fails)
    case Working(k, Reserved) => Wake(k != key, false)
  }

  function StepsTo(q: Queue, key: Key): nat
    requires q.drain.Some?
  {
    match q.drain.value.activity
    case Looping => 2
    case Reporting => 3
    case Working(k, Resolving) => if k == key then 1 else 3
    case Working(k, Reserved) => if k == key then 0 else 3
  }

  lemma StepTowards(q: Queue, n: Ticket)
    requires Inv(q) && n < |q.keys| && !q.closed && Carries(q, n)
    ensures var key := q.keys[n]; var after := Next(q, Towards(q, key));
      && after.keys == q.keys
      && (StepsTo(q, key) == 0 ==> Delivered(n) in after.outcomes)
      && (StepsTo(q, key) > 0 ==> !after.closed && Carries(after, n) && StepsTo(after, key) < StepsTo(q, key))
  {}

  lemma {:induction false} CarriedIsDelivered(q: Queue, n: Ticket) returns (events: seq<Event>)
    requires Inv(q) && n < |q.keys| && !q.closed && Carries(q, n)
    ensures Delivered(n) in Continue(q, events).outcomes
    decreases StepsTo(q, q.keys[n])
  {
    hide Inv, Next, Towards, StepsTo, Continue;
    var event := Towards(q, q.keys[n]);
    StepKeepsInv(q, event);
    StepTowards(q, n);
    var rest := [];
    if StepsTo(q, q.keys[n]) == 0 {
      ContinueNothing(Next(q, event));
    } else {
      rest := CarriedIsDelivered(Next(q, event), n);
    }
    ContinueCons(q, event, rest);
    events := [event] + rest;
  }

  lemma ContinueNothing(q: Queue)
    ensures Continue(q, []) == q
  {}

  /** A notification that has left is out of reach: no drain that delivers has it. */
  ghost predicate OutOfReach(q: Queue, n: Ticket) {
    n < |q.keys| && n in q.left && !Settled(q.outcomes, n) && (q.closed || !Carries(q, n))
  }

  lemma OutOfReachStays(q: Queue, event: Event, n: Ticket)
    requires Inv(q) && OutOfReach(q, n)
    ensures OutOfReach(Next(q, event), n)
  {
    SettlesIs(q, event);
    if Settles(q, event) {
      SettledSnoc(q.outcomes, if event.Wake? then Delivered(Carried(q)) else Dropped(Carried(q)), n);
    }
    hide Settled;
  }

  lemma {:induction false} NeverReached(q: Queue, events: seq<Event>, n: Ticket)
    requires Inv(q) && OutOfReach(q, n)
    ensures Inv(Continue(q, events)) && OutOfReach(Continue(q, events), n)
  {
    hide Inv, OutOfReach;
    if events != [] {
      var init, event := events[..|events| - 1], events[|events| - 1];
      NeverReached(q, init, n);
      StepKeepsInv(Continue(q, init), event);
      OutOfReachStays(Continue(q, init), event, n);
    }
  }

  ghost predicate CanDeliver(q: Queue, n: Ticket) { exists events :: Delivered(n) in Continue(q, events).outcomes }

  /** What was replaced, discarded or closed off, and not settled yet, can still be delivered, if
      and only if the queue is open and the running drain carries it in its snapshot. */
  lemma LeftDeliveredIff(q: Queue, n: Ticket)
    requires Inv(q) && n < |q.keys| && n in q.left && !Settled(q.outcomes, n)
    ensures CanDeliver(q, n) <==> !q.closed && Carries(q, n)
  {
    if !q.closed && Carries(q, n) {
      var events := CarriedIsDelivered(q, n);
    } else {
      forall events ensures Delivered(n) !in Continue(q, events).outcomes {
        NeverReached(q, events, n);
      }
    }
  }

  /** It does happen to a notification whose session is discarded during its delivery. */
  lemma DiscardedIsDelivered(key: Key) returns (events: seq<Event>, n: Ticket)
    ensures var q := Run(events); n < |q.keys| && n in q.left && Delivered(n) in q.outcomes
    ensures |events| > 1 && events[|events| - 2] == Discard({key})
  {
    var before := AtWorkIsReachable(key, Reserved);
    RunSnoc(before, Discard({key}));
    RunSnoc(before + [Discard({key})], Wake(false, false));
    n := Carried(Run(before));
    events := before + [Discard({key})] + [Wake(false, false)];
    hide Run, Settled;
  }
}
