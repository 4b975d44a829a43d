/** The remote helper's task table and output window. Processes, readers, the writer, the
    client and shutdown take their steps in any order; tasks are numbered as they start. */
module RemoteWindow {
  import opened Options

  type Name = string

  const MAX_TASKS: nat := 32
  const OUTPUT_SLOTS: nat := 8
  const OUTPUT_CAPACITY: nat := 64

  /** `Pending` has read data and waits for a slot, `Holding` has a slot and waits for the queue. */
  datatype Reader = Reading | Pending | Holding | Returned

  /** `Listed` in the task table, removed from it with the exit message still to come, or over. */
  datatype Phase = Listed | Leaving | Over

  /** `taken` counts the slots that acknowledgements have taken out, `leaked` those that a
      cancelled reader has left behind, `acks` the acknowledgements the client has made of this
      task's data and `strays` those of another task's that took a slot here. */
  datatype Task = Task(
    name: Name,
    readers: seq<Reader>,
    slots: nat,
    cancelled: bool,
    done: bool,
    phase: Phase,
    leaked: nat,
    taken: nat,
    acks: nat,
    strays: nat)

  datatype Message = Data(task: nat) | Exit(task: nat)

  /** `queued` is everything ever put on the output channel, of which the first `written` have
      reached the client; `writing` until the writer has returned. */
  datatype Server = Server(table: map<Name, nat>, tasks: seq<Task>, queued: seq<Message>, written: nat, closing: bool, writing: bool)

  datatype Event =
    | Start(name: Name, pty: bool)
    | ReadData(task: nat, reader: nat)
    | ReadEnd(task: nat, reader: nat)
    | TakeSlot(task: nat, reader: nat)
    | Queue(task: nat, reader: nat)
    | GiveUp(task: nat, reader: nat)
    | Stop(task: nat)
    | Die(task: nat)
    | Remove(task: nat)
    | QueueExit(task: nat)
    | Write
    | WriterReturns               // one of its choices once the server is closing
    | Ack(task: nat)                 // the client acknowledges one message of this task
    | Shutdown

  predicate HasReader(s: Server, task: nat, reader: nat, stage: Reader) {
    task < |s.tasks| && reader < |s.tasks[task].readers| && s.tasks[task].readers[reader] == stage
  }

  function Move(s: Server, task: nat, reader: nat, stage: Reader): Server
    requires task < |s.tasks| && reader < |s.tasks[task].readers|
  {
    s.(tasks := s.tasks[task := s.tasks[task].(readers := s.tasks[task].readers[reader := stage])])
  }

  predicate HasRoom(s: Server) { |s.queued| < s.written + OUTPUT_CAPACITY }

  function Next(s: Server, event: Event): Server {
    match event
    case Start(name, pty) =>
      if s.closing || name == "" || name in s.table || |s.table| >= MAX_TASKS then s
      else s.(table := s.table[name := |s.tasks|],
              tasks := s.tasks + [Task(name, if pty then [Reading] else [Reading, Reading], 0, false, false, Listed, 0, 0, 0, 0)])
    case ReadData(t, r) => if HasReader(s, t, r, Reading) then Move(s, t, r, Pending) else s
    case ReadEnd(t, r) => if HasReader(s, t, r, Reading) then Move(s, t, r, Returned) else s
    case TakeSlot(t, r) =>
      if !HasReader(s, t, r, Pending) || s.tasks[t].slots >= OUTPUT_SLOTS then s
      else
        var next := Move(s, t, r, Holding);
        next.(tasks := next.tasks[t := next.tasks[t].(slots := s.tasks[t].slots + 1)])
    case Queue(t, r) =>
      if !HasReader(s, t, r, Holding) || !HasRoom(s) then s
      else Move(s, t, r, Reading).(queued := s.queued + [Data(t)])
    case GiveUp(t, r) =>
      if HasReader(s, t, r, Pending) && (s.tasks[t].cancelled || s.closing) then Move(s, t, r, Returned)
      else if HasReader(s, t, r, Holding) && (s.tasks[t].cancelled || s.closing) then
        var next := Move(s, t, r, Returned);
        next.(tasks := next.tasks[t := next.tasks[t].(leaked := s.tasks[t].leaked + 1)])
      else s
    case Stop(t) => if t < |s.tasks| then s.(tasks := s.tasks[t := s.tasks[t].(cancelled := true)]) else s
    case Die(t) => if t < |s.tasks| then s.(tasks := s.tasks[t := s.tasks[t].(done := true)]) else s
    case Remove(t) =>
      if t < |s.tasks| && s.tasks[t].phase.Listed? && s.tasks[t].done && AllReturned(s.tasks[t].readers)
      then s.(table := s.table - {s.tasks[t].name}, tasks := s.tasks[t := s.tasks[t].(phase := Leaving)]) else s
    case QueueExit(t) =>
      if t >= |s.tasks| || !s.tasks[t].phase.Leaving? then s
      else if s.closing then s.(tasks := s.tasks[t := s.tasks[t].(phase := Over)])
      else if HasRoom(s) then s.(tasks := s.tasks[t := s.tasks[t].(phase := Over)], queued := s.queued + [Exit(t)])
      else s
    case Write => if s.writing && s.written < |s.queued| then s.(written := s.written + 1) else s
    case WriterReturns => if s.closing then s.(writing := false) else s
    case Ack(t) =>
      if t >= |s.tasks| || !MayAck(s, t) then s
      else
        var counted := s.tasks[t := s.tasks[t].(acks := s.tasks[t].acks + 1)];
        var name := s.tasks[t].name;
        if name !in s.table || s.table[name] >= |counted| || counted[s.table[name]].slots == 0 then s.(tasks := counted)
        else s.(tasks := counted[s.table[name] := TakeOut(counted[s.table[name]], s.table[name] != t)])
    case Shutdown => s.(closing := true)
  }

  function TakeOut(task: Task, stray: bool): Task
    requires task.slots > 0
  {
    task.(slots := task.slots - 1, taken := task.taken + 1, strays := task.strays + if stray then 1 else 0)
  }

  predicate AllReturned(readers: seq<Reader>) { forall r :: 0 <= r < |readers| ==> readers[r].Returned? }

  /** Data of a task the client has received. */
  function Received(s: Server, task: nat): nat
    requires s.written <= |s.queued|
  {
    multiset(s.queued[..s.written])[Data(task)]
  }

  /** The client acknowledges only what it has received. */
  predicate MayAck(s: Server, task: nat)
    requires task < |s.tasks|
  {
    s.written <= |s.queued| && s.tasks[task].acks < Received(s, task)
  }

  function Run(s: Server, events: seq<Event>): Server {
    if events == [] then s else Next(Run(s, events[..|events| - 1]), events[|events| - 1])
  }

  function Initial(): Server { Server(map[], [], [], 0, false, true) }

  // ----- The invariant of all runs -----

  function HoldingIn(readers: seq<Reader>): nat {
    if readers == [] then 0
    else HoldingIn(readers[..|readers| - 1]) + if readers[|readers| - 1].Holding? then 1 else 0
  }

  /** Every slot ever taken is accounted for: it is in use or was taken out again, and it
      stands for a reader at the queue, a leak, or a message put on the queue. */
  ghost predicate SlotsAddUp(task: Task, accepted: nat) {
    && task.slots <= OUTPUT_SLOTS
    && task.slots + task.taken == HoldingIn(task.readers) + task.leaked + accepted
  }

  /** Each acknowledgement takes out a slot as long as its task is listed and no other task's
      acknowledgement has interfered; a removed task has no reader left. */
  ghost predicate AcksAddUp(task: Task, received: nat) {
    && task.acks <= received
    && task.taken <= task.acks + task.strays
    && (task.phase.Listed? && task.strays == 0 ==> task.taken == task.acks)
    && (!task.phase.Listed? ==> AllReturned(task.readers) && task.done)
  }

  ghost predicate Listing(s: Server) {
    && |s.table| <= MAX_TASKS
    && (forall name <- s.table :: s.table[name] < |s.tasks| && s.tasks[s.table[name]].name == name)
    && (forall t :: 0 <= t < |s.tasks| ==> (s.tasks[t].phase.Listed? <==> s.tasks[t].name in s.table && s.table[s.tasks[t].name] == t))
  }

  ghost predicate Messages(s: Server) {
    && s.written <= |s.queued| <= s.written + OUTPUT_CAPACITY
    && (!s.writing ==> s.closing)
    && (forall i :: 0 <= i < |s.queued| ==> s.queued[i].task < |s.tasks|)
    && (forall i :: 0 <= i < |s.queued| && s.queued[i].Exit? ==> s.tasks[s.queued[i].task].phase.Over?)
    && ExitsLast(s.queued)
  }

  /** Nothing of a task follows its exit message. */
  ghost predicate ExitsLast(queued: seq<Message>) {
    forall i, j :: 0 <= i < j < |queued| && queued[i].Exit? ==> queued[j].task != queued[i].task
  }

  ghost predicate Window(s: Server, t: nat)
    requires t < |s.tasks| && s.written <= |s.queued|
  {
    SlotsAddUp(s.tasks[t], multiset(s.queued)[Data(t)]) && AcksAddUp(s.tasks[t], Received(s, t))
  }

  ghost predicate Inv(s: Server) {
    Listing(s) && Messages(s) && forall t :: 0 <= t < |s.tasks| ==> Window(s, t)
  }

  lemma {:induction false} HoldingUpdate(readers: seq<Reader>, r: nat, stage: Reader)
    requires r < |readers|
    ensures HoldingIn(readers[r := stage]) + (if readers[r].Holding? then 1 else 0)
         == HoldingIn(readers) + if stage.Holding? then 1 else 0
  {
    var n := |readers| - 1;
    if r < n {
      HoldingUpdate(readers[..n], r, stage);
      assert readers[r := stage][..n] == readers[..n][r := stage];
    } else {
      assert readers[r := stage][..n] == readers[..n];
    }
  }

  lemma ReceivedIsAccepted(s: Server, t: nat)
    requires s.written <= |s.queued|
    ensures Received(s, t) <= multiset(s.queued)[Data(t)]
  {
    assert s.queued == s.queued[..s.written] + s.queued[s.written..];
  }

  /** A task changes without its place in the table and without a message being moved. */
  lemma UpdateTask(s: Server, t: nat, task: Task)
    requires Inv(s) && t < |s.tasks| && task.name == s.tasks[t].name && task.phase == s.tasks[t].phase
    requires SlotsAddUp(task, multiset(s.queued)[Data(t)]) && AcksAddUp(task, Received(s, t))
    ensures Inv(s.(tasks := s.tasks[t := task]))
  {
    hide SlotsAddUp, AcksAddUp;
    var after := s.(tasks := s.tasks[t := task]);
    forall u | 0 <= u < |after.tasks| ensures Window(after, u) {
      assert Window(s, u);
    }
  }

  lemma ReaderMoves(s: Server, t: nat, r: nat, stage: Reader, slots: nat, leaked: nat)
    requires Inv(s) && t < |s.tasks| && r < |s.tasks[t].readers| && slots <= OUTPUT_SLOTS
    requires !s.tasks[t].readers[r].Returned?
    requires slots + s.tasks[t].leaked + (if s.tasks[t].readers[r].Holding? then 1 else 0)
          == s.tasks[t].slots + leaked + if stage.Holding? then 1 else 0
    ensures var task := s.tasks[t];
      Inv(s.(tasks := s.tasks[t := task.(readers := task.readers[r := stage], slots := slots, leaked := leaked)]))
  {
    var task := s.tasks[t];
    HoldingUpdate(task.readers, r, stage);
    assert Window(s, t);
    UpdateTask(s, t, task.(readers := task.readers[r := stage], slots := slots, leaked := leaked));
  }

  lemma ReaderStep(s: Server, t: nat, r: nat, event: Event)
    requires Inv(s)
    requires event == ReadData(t, r) || event == ReadEnd(t, r) || event == TakeSlot(t, r) || event == GiveUp(t, r)
    ensures Inv(Next(s, event))
  {
    hide Inv;
    if t < |s.tasks| && r < |s.tasks[t].readers| && Next(s, event) != s {
      SlotBound(s, t);
      var task, after := s.tasks[t], Next(s, event).tasks[t];
      ReaderMoves(s, t, r, after.readers[r], after.slots, after.leaked);
      assert after == task.(readers := task.readers[r := after.readers[r]], slots := after.slots, leaked := after.leaked);
      assert Next(s, event) == s.(tasks := s.tasks[t := after]);
    }
  }

  lemma SlotBound(s: Server, t: nat)
    requires Inv(s) && t < |s.tasks|
    ensures s.tasks[t].slots <= OUTPUT_SLOTS && s.written <= |s.queued|
  {
    assert Window(s, t);
  }

  lemma QueueStep(s: Server, t: nat, r: nat)
    requires Inv(s)
    ensures Inv(Next(s, Queue(t, r)))
  {
    if HasReader(s, t, r, Holding) && HasRoom(s) {
      assert Window(s, t);
      assert !AllReturned(s.tasks[t].readers);
      HoldingUpdate(s.tasks[t].readers, r, Reading);
      AppendMessage(s, t, s.tasks[t].(readers := s.tasks[t].readers[r := Reading]), Data(t));
    }
  }

  /** A message goes on the queue while its task changes. */
  lemma AppendMessage(s: Server, t: nat, task: Task, message: Message)
    requires Inv(s) && t < |s.tasks| && HasRoom(s) && message.task == t && !s.tasks[t].phase.Over?
    requires task.name == s.tasks[t].name && (task.phase.Listed? <==> s.tasks[t].phase.Listed?)
    requires message.Exit? ==> task.phase.Over?
    requires SlotsAddUp(task, multiset(s.queued)[Data(t)] + if message.Data? then 1 else 0)
    requires AcksAddUp(task, Received(s, t))
    ensures Inv(s.(tasks := s.tasks[t := task], queued := s.queued + [message]))
  {
    hide SlotsAddUp, AcksAddUp;
    var after := s.(tasks := s.tasks[t := task], queued := s.queued + [message]);
    assert Messages(after) by { hide Window; }
    assert Listing(after) by { hide Window; }
    forall u | 0 <= u < |after.tasks| ensures Window(after, u) {
      assert Window(s, u);
      AppendedCount(s, message, u);
    }
  }

  lemma AppendedCount(s: Server, message: Message, u: nat)
    requires s.written <= |s.queued|
    ensures multiset(s.queued + [message])[Data(u)] == multiset(s.queued)[Data(u)] + if message == Data(u) then 1 else 0
    ensures (s.queued + [message])[..s.written] == s.queued[..s.written]
  {
    assert multiset(s.queued + [message]) == multiset(s.queued) + multiset{message};
  }

  lemma QueueExitStep(s: Server, t: nat)
    requires Inv(s)
    ensures Inv(Next(s, QueueExit(t)))
  {
    if t < |s.tasks| && s.tasks[t].phase.Leaving? {
      assert Window(s, t);
      if s.closing {
        LeaveSilently(s, t);
      } else if HasRoom(s) {
        AppendMessage(s, t, s.tasks[t].(phase := Over), Exit(t));
      }
    }
  }

  lemma LeaveSilently(s: Server, t: nat)
    requires Inv(s) && t < |s.tasks| && s.tasks[t].phase.Leaving?
    ensures Inv(s.(tasks := s.tasks[t := s.tasks[t].(phase := Over)]))
  {
    var after := s.(tasks := s.tasks[t := s.tasks[t].(phase := Over)]);
    forall u | 0 <= u < |after.tasks| ensures Window(after, u) {
      assert Window(s, u);
    }
  }

  lemma RemoveListing(s: Server, t: nat)
    requires Listing(s)
    ensures Listing(Next(s, Remove(t)))
  {
    hide AllReturned;
  }

  lemma RemoveMessages(s: Server, t: nat)
    requires Messages(s)
    ensures Messages(Next(s, Remove(t)))
  {
    hide AllReturned, ExitsLast;
  }

  lemma RemoveWindow(s: Server, t: nat, u: nat)
    requires u < |s.tasks| && s.written <= |s.queued| && Window(s, u)
    ensures var after := Next(s, Remove(t));
      |after.tasks| == |s.tasks| && after.written == s.written && after.queued == s.queued && Window(after, u)
  {
    hide AllReturned, HoldingIn;
  }

  lemma RemoveStep(s: Server, t: nat)
    requires Inv(s)
    ensures Inv(Next(s, Remove(t)))
  {
    var after := Next(s, Remove(t));
    RemoveListing(s, t);
    RemoveMessages(s, t);
    assert |after.tasks| == |s.tasks|;
    forall u | 0 <= u < |after.tasks| ensures after.written <= |after.queued| && Window(after, u) {
      assert Window(s, u);
      RemoveWindow(s, t, u);
    }
    hide Next, Listing, Messages, Window;
  }

  lemma StartStep(s: Server, name: Name, pty: bool)
    requires Inv(s)
    ensures Inv(Next(s, Start(name, pty)))
  {
    var after := Next(s, Start(name, pty));
    if after != s {
      var t := |s.tasks|;
      assert HoldingIn([Reading]) == 0 && HoldingIn([Reading, Reading]) == 0 by {
        assert [Reading, Reading][..1] == [Reading] && [Reading][..0] == [];
      }
      NothingYet(s, t);
      forall u | 0 <= u < |after.tasks| ensures Window(after, u) {
        if u < t { assert Window(s, u); }
      }
    }
  }

  lemma NothingYet(s: Server, t: nat)
    requires Messages(s) && t == |s.tasks|
    ensures multiset(s.queued)[Data(t)] == 0 && Received(s, t) == 0
  {
    assert Data(t) !in s.queued;
    assert Data(t) !in multiset(s.queued);
    assert Data(t) !in s.queued[..s.written];
    assert Data(t) !in multiset(s.queued[..s.written]);
  }

  lemma WriteStep(s: Server)
    requires Inv(s)
    ensures Inv(Next(s, Write))
  {
    if s.writing && s.written < |s.queued| {
      var after := Next(s, Write);
      assert s.queued[..s.written + 1] == s.queued[..s.written] + [s.queued[s.written]];
      forall u | 0 <= u < |after.tasks| ensures Window(after, u) {
        assert Window(s, u);
      }
    }
  }

  lemma AckStep(s: Server, t: nat)
    requires Inv(s)
    ensures Inv(Next(s, Ack(t)))
  {
    hide Inv, MayAck;
    if t < |s.tasks| && MayAck(s, t) {
      var name := s.tasks[t].name;
      var counted := s.(tasks := s.tasks[t := s.tasks[t].(acks := s.tasks[t].acks + 1)]);
      if name in s.table && s.table[name] == t && s.tasks[t].slots > 0 {
        OwnAck(s, t);
        assert Next(s, Ack(t)).tasks == s.tasks[t := TakeOut(counted.tasks[t], false)];
      } else {
        PlainAck(s, t);
        if name in s.table && s.table[name] != t && s.table[name] < |s.tasks| {
          StrayStep(counted, s.table[name]);
        }
      }
    }
  }

  lemma OwnAck(s: Server, t: nat)
    requires Inv(s) && t < |s.tasks| && MayAck(s, t) && s.tasks[t].slots > 0
    ensures Inv(s.(tasks := s.tasks[t := TakeOut(s.tasks[t].(acks := s.tasks[t].acks + 1), false)]))
  {
    assert Window(s, t);
    UpdateTask(s, t, TakeOut(s.tasks[t].(acks := s.tasks[t].acks + 1), false));
  }

  /** An acknowledgement that takes no slot of its task: the task is listed no more, or
      strays have taken its slots already. */
  lemma PlainAck(s: Server, t: nat)
    requires Inv(s) && t < |s.tasks| && MayAck(s, t)
    requires s.tasks[t].name in s.table && s.table[s.tasks[t].name] == t ==> s.tasks[t].slots == 0
    ensures Inv(s.(tasks := s.tasks[t := s.tasks[t].(acks := s.tasks[t].acks + 1)]))
  {
    assert Window(s, t);
    ReceivedIsAccepted(s, t);
    UpdateTask(s, t, s.tasks[t].(acks := s.tasks[t].acks + 1));
  }

  lemma StrayStep(s: Server, u: nat)
    requires Inv(s) && u < |s.tasks|
    ensures s.tasks[u].slots > 0 ==> Inv(s.(tasks := s.tasks[u := TakeOut(s.tasks[u], true)]))
  {
    if s.tasks[u].slots > 0 {
      assert Window(s, u);
      UpdateTask(s, u, TakeOut(s.tasks[u], true));
    }
  }

  lemma StepKeepsInv(s: Server, event: Event)
    requires Inv(s)
    ensures Inv(Next(s, event))
  {
    hide Inv;
    match event {
      case Start(name, pty) => StartStep(s, name, pty);
      case ReadData(t, r) => ReaderStep(s, t, r, event);
      case ReadEnd(t, r) => ReaderStep(s, t, r, event);
      case TakeSlot(t, r) => ReaderStep(s, t, r, event);
      case GiveUp(t, r) => ReaderStep(s, t, r, event);
      case Queue(t, r) => QueueStep(s, t, r);
      case Stop(t) => FlagStep(s, t, event);
      case Die(t) => FlagStep(s, t, event);
      case Remove(t) => RemoveStep(s, t);
      case QueueExit(t) => QueueExitStep(s, t);
      case Write => WriteStep(s);
      case Ack(t) => AckStep(s, t);
      case WriterReturns => ClosingStep(s, event);
      case Shutdown => ClosingStep(s, event);
    }
  }

  lemma FlagStep(s: Server, t: nat, event: Event)
    requires Inv(s) && (event == Stop(t) || event == Die(t))
    ensures Inv(Next(s, event))
  {
    if t < |s.tasks| {
      assert Window(s, t);
      UpdateTask(s, t, Next(s, event).tasks[t]);
    }
  }

  lemma ClosingStep(s: Server, event: Event)
    requires Inv(s) && (event.Shutdown? || event.WriterReturns?)
    ensures Inv(Next(s, event))
  {
    forall u | 0 <= u < |s.tasks| ensures Window(Next(s, event), u) {
      assert Window(s, u);
    }
  }

  lemma {:induction false} RunKeepsInv(events: seq<Event>)
    ensures Inv(Run(Initial(), events))
  {
    if events != [] {
      RunKeepsInv(events[..|events| - 1]);
      StepKeepsInv(Run(Initial(), events[..|events| - 1]), events[|events| - 1]);
    }
  }

  // ----- What every run keeps -----

  /** The table stays within its limit, and what the client has received and not acknowledged
      of a task stays within the window, widened by one for each acknowledgement that was meant
      for an earlier task of the same name. */
  lemma WindowHolds(events: seq<Event>, t: nat)
    requires t < |Run(Initial(), events).tasks|
    ensures var s := Run(Initial(), events);
      && |s.table| <= MAX_TASKS
      && s.tasks[t].slots <= OUTPUT_SLOTS
      && s.written <= |s.queued|
      && Received(s, t) <= s.tasks[t].acks + s.tasks[t].strays + OUTPUT_SLOTS
  {
    RunKeepsInv(events);
    var s := Run(Initial(), events);
    assert Window(s, t);
    ReceivedIsAccepted(s, t);
  }

  ghost predicate DistinctNames(s: Server) {
    forall t, u :: 0 <= t < u < |s.tasks| ==> s.tasks[t].name != s.tasks[u].name
  }

  /** Tasks keep their names, and only an acknowledgement can go astray. */
  lemma NamesStay(s: Server, event: Event)
    requires Inv(s)
    ensures |s.tasks| <= |Next(s, event).tasks|
    ensures forall t :: 0 <= t < |s.tasks| ==> Next(s, event).tasks[t].name == s.tasks[t].name
    ensures !event.Ack? ==> forall t :: 0 <= t < |Next(s, event).tasks| ==>
      Next(s, event).tasks[t].strays == if t < |s.tasks| then s.tasks[t].strays else 0
  {
    hide Inv, HasRoom, AllReturned;
    if event.Ack? {
      AckKeepsNames(s, event.task);
    } else if event.TakeSlot? || event.GiveUp? {
      ReaderKeepsNames(s, event);
    }
  }

  lemma AckKeepsNames(s: Server, t: nat)
    ensures |s.tasks| == |Next(s, Ack(t)).tasks|
    ensures forall u :: 0 <= u < |s.tasks| ==> Next(s, Ack(t)).tasks[u].name == s.tasks[u].name
  {
    hide MayAck;
  }

  lemma ReaderKeepsNames(s: Server, event: Event)
    requires event.TakeSlot? || event.GiveUp?
    ensures |s.tasks| == |Next(s, event).tasks|
    ensures forall u :: 0 <= u < |s.tasks| ==>
      Next(s, event).tasks[u].name == s.tasks[u].name && Next(s, event).tasks[u].strays == s.tasks[u].strays
  {}

  /** Where no name is used twice no acknowledgement goes astray. */
  lemma {:induction false} NoStrays(events: seq<Event>)
    requires DistinctNames(Run(Initial(), events))
    ensures forall t :: 0 <= t < |Run(Initial(), events).tasks| ==> Run(Initial(), events).tasks[t].strays == 0
  {
    if events != [] {
      var before := Run(Initial(), events[..|events| - 1]);
      var event := events[|events| - 1];
      RunKeepsInv(events[..|events| - 1]);
      NamesStay(before, event);
      NoStrays(events[..|events| - 1]);
      StraysOnlyByReuse(before, event);
    }
  }

  lemma StraysOnlyByReuse(s: Server, event: Event)
    requires Inv(s) && DistinctNames(s)
    requires forall t :: 0 <= t < |s.tasks| ==> s.tasks[t].strays == 0
    ensures forall t :: 0 <= t < |Next(s, event).tasks| ==> Next(s, event).tasks[t].strays == 0
  {
    NamesStay(s, event);
    if event.Ack? && event.task < |s.tasks| {
      var name := s.tasks[event.task].name;
      assert Listing(s);
      hide Inv, MayAck;
      assert name in s.table ==> s.table[name] == event.task;
    }
  }

  /** Then each task has at most eight messages unacknowledged, and its slots are exactly the
      readers at the queue, the leaked ones and the messages under way. */
  lemma ExactWindow(events: seq<Event>, t: nat)
    requires var s := Run(Initial(), events); DistinctNames(s) && t < |s.tasks| && s.tasks[t].phase.Listed?
    ensures var s := Run(Initial(), events); var task := s.tasks[t];
      && s.written <= |s.queued|
      && task.slots + task.acks == HoldingIn(task.readers) + task.leaked + multiset(s.queued)[Data(t)]
      && Received(s, t) - task.acks <= OUTPUT_SLOTS
  {
    NoStrays(events);
    RunKeepsInv(events);
    assert Window(Run(Initial(), events), t);
    ReceivedIsAccepted(Run(Initial(), events), t);
  }

  ghost predicate Reachable(s: Server) { exists events :: Run(Initial(), events) == s }

  lemma ReachNext(s: Server, event: Event)
    requires Reachable(s)
    ensures Reachable(Next(s, event))
  {
    var events :| Run(Initial(), events) == s;
    assert (events + [event])[..|events|] == events;
    assert Run(Initial(), events + [event]) == Next(s, event);
  }

  /** A terminal's reader takes one chunk of output all the way to the client. */
  lemma Produce(s: Server, t: nat) returns (after: Server)
    requires Reachable(s) && t < |s.tasks| && s.tasks[t].readers == [Reading]
    requires s.tasks[t].slots < OUTPUT_SLOTS && s.written == |s.queued| && s.writing
    ensures Reachable(after)
    ensures after.table == s.table && after.closing == s.closing && after.writing
    ensures after.tasks == s.tasks[t := s.tasks[t].(slots := s.tasks[t].slots + 1)]
    ensures after.queued == s.queued + [Data(t)] && after.written == |after.queued|
  {
    hide Reachable;
    var a := Next(s, ReadData(t, 0));
    ReachNext(s, ReadData(t, 0));
    var b := Next(a, TakeSlot(t, 0));
    ReachNext(a, TakeSlot(t, 0));
    var c := Next(b, Queue(t, 0));
    ReachNext(b, Queue(t, 0));
    after := Next(c, Write);
    ReachNext(c, Write);
    assert c.tasks[t] == s.tasks[t].(slots := s.tasks[t].slots + 1);
    assert c.tasks == s.tasks[t := c.tasks[t]];
  }

  lemma {:induction false} ProduceMany(s: Server, t: nat, n: nat) returns (after: Server)
    requires Reachable(s) && t < |s.tasks| && s.tasks[t].readers == [Reading]
    requires s.tasks[t].slots + n <= OUTPUT_SLOTS && s.written == |s.queued| && s.writing
    ensures Reachable(after)
    ensures after.table == s.table && after.closing == s.closing && after.writing
    ensures after.tasks == s.tasks[t := s.tasks[t].(slots := s.tasks[t].slots + n)]
    ensures after.queued == s.queued + seq(n, _ => Data(t)) && after.written == |after.queued|
  {
    hide Reachable;
    if n == 0 {
      after := s;
      assert s.tasks[t := s.tasks[t].(slots := s.tasks[t].slots + 0)] == s.tasks;
      assert s.queued + seq(0, _ => Data(t)) == s.queued;
    } else {
      var before := ProduceMany(s, t, n - 1);
      after := Produce(before, t);
      assert seq(n - 1, _ => Data(t)) + [Data(t)] == seq(n, _ => Data(t));
    }
  }

  /** One task delivers a chunk and ends without an acknowledgement. */
  lemma FirstTaskEnds(name: Name) returns (s: Server)
    requires name != ""
    ensures Reachable(s) && s.table == map[] && !s.closing && s.writing
    ensures s.tasks == [Task(name, [Returned], 1, false, true, Over, 0, 0, 0, 0)]
    ensures s.queued == [Data(0), Exit(0)] && s.written == 2
  {
    hide Reachable;
    InitialIsReachable();
    var started := Next(Initial(), Start(name, true));
    ReachNext(Initial(), Start(name, true));
    var produced := Produce(started, 0);
    assert produced.tasks == [Task(name, [Reading], 1, false, false, Listed, 0, 0, 0, 0)];
    s := TaskEnds(produced, name);
  }

  lemma TaskEnds(a: Server, name: Name) returns (s: Server)
    requires Reachable(a) && a.table == map[name := 0] && !a.closing && a.writing
    requires a.tasks == [Task(name, [Reading], 1, false, false, Listed, 0, 0, 0, 0)]
    requires a.queued == [Data(0)] && a.written == 1
    ensures Reachable(s) && s.table == map[] && !s.closing && s.writing
    ensures s.tasks == [Task(name, [Returned], 1, false, true, Over, 0, 0, 0, 0)]
    ensures s.queued == [Data(0), Exit(0)] && s.written == 2
  {
    hide Reachable;
    var b := Next(a, ReadEnd(0, 0));
    ReachNext(a, ReadEnd(0, 0));
    assert [Reading][0 := Returned] == [Returned];
    assert b.tasks == [Task(name, [Returned], 1, false, false, Listed, 0, 0, 0, 0)];
    var c := Next(b, Die(0));
    ReachNext(b, Die(0));
    assert c.tasks == [Task(name, [Returned], 1, false, true, Listed, 0, 0, 0, 0)];
    var d := Next(c, Remove(0));
    ReachNext(c, Remove(0));
    assert d.tasks == [Task(name, [Returned], 1, false, true, Leaving, 0, 0, 0, 0)] && d.table == map[];
    var e := Next(d, QueueExit(0));
    ReachNext(d, QueueExit(0));
    s := Next(e, Write);
    ReachNext(e, Write);
  }

  lemma InitialIsReachable()
    ensures Reachable(Initial())
  {
    assert Run(Initial(), []) == Initial();
  }

  /** And that does happen: with a terminal's name used again before its first message was
      acknowledged, nine messages of the second terminal can be unacknowledged. */
  lemma NineUnacknowledged(name: Name) returns (s: Server)
    requires name != ""
    ensures Reachable(s) && |s.tasks| == 2 && s.written <= |s.queued|
    ensures Received(s, 1) == s.tasks[1].acks + OUTPUT_SLOTS + 1
  {
    hide Reachable, Received;
    var one := FirstTaskEnds(name);
    var two := Next(one, Start(name, true));
    ReachNext(one, Start(name, true));
    assert two.tasks[1] == Task(name, [Reading], 0, false, false, Listed, 0, 0, 0, 0) && two.tasks[0] == one.tasks[0];
    var full := ProduceMany(two, 1, OUTPUT_SLOTS);
    EightReceived(full);
    var acked := Next(full, Ack(0));
    ReachNext(full, Ack(0));
    assert full.tasks[0].name == name && full.table[name] == 1;
    assert acked.tasks[1] == TakeOut(full.tasks[1], true);
    s := Produce(acked, 1);
    OneMore(full, s);
  }

  lemma EightReceived(s: Server)
    requires s.queued == [Data(0), Exit(0)] + seq(OUTPUT_SLOTS, _ => Data(1)) && s.written == |s.queued|
    ensures Received(s, 0) == 1 && Received(s, 1) == OUTPUT_SLOTS
  {
    assert s.queued[..s.written] == s.queued;
    Repeated([Data(0), Exit(0)], Data(1), OUTPUT_SLOTS);
  }

  lemma {:induction false} Repeated(queued: seq<Message>, message: Message, n: nat)
    ensures multiset(queued + seq(n, _ => message)) == multiset(queued)[message := multiset(queued)[message] + n]
  {
    if n == 0 {
      assert queued + seq(0, _ => message) == queued;
    } else {
      Repeated(queued, message, n - 1);
      assert queued + seq(n, _ => message) == queued + seq(n - 1, _ => message) + [message];
    }
  }

  lemma OneMore(full: Server, s: Server)
    requires full.written == |full.queued| && s.queued == full.queued + [Data(1)] && s.written == |s.queued|
    ensures Received(s, 1) == Received(full, 1) + 1
  {
    assert s.queued[..s.written] == full.queued[..full.written] + [Data(1)];
  }

  /** The tasks that are in the table. */
  function InTable(s: Server): set<nat> { set t: nat | t < |s.tasks| && s.tasks[t].phase.Listed? }

  lemma {:induction false} DistinctValues(table: map<Name, nat>)
    requires forall a <- table, b <- table :: a != b ==> table[a] != table[b]
    ensures |table.Values| == |table|
    decreases table.Keys
  {
    if table == map[] {
      assert table.Values == {};
    } else {
      var a :| a in table;
      var rest := table - {a};
      DistinctValues(rest);
      assert table[a] !in rest.Values;
      assert table == rest[a := table[a]];
      ValuesWith(rest, a, table[a]);
    }
  }

  lemma ValuesWith(table: map<Name, nat>, name: Name, task: nat)
    requires name !in table
    ensures table[name := task].Values == table.Values + {task}
  {
    var more := table[name := task];
    assert name in more;
    forall n <- table.Values ensures n in more.Values {
      var key :| key in table && table[key] == n;
      assert key in more && more[key] == n;
    }
  }

  lemma InTableCount(s: Server)
    requires Listing(s)
    ensures |InTable(s)| == |s.table|
  {
    DistinctValues(s.table);
    assert InTable(s) == s.table.Values;
  }

  /** A task is put in the table with a reader for each of its streams, one if it is a terminal and
      two otherwise, with nothing taken, and with everything else as it was. */
  predicate Started(s: Server, after: Server, name: Name, pty: bool) {
    && after.tasks == s.tasks + [Task(name, if pty then [Reading] else [Reading, Reading], 0, false, false, Listed, 0, 0, 0, 0)]
    && after.table == s.table[name := |s.tasks|]
    && after == s.(table := after.table, tasks := after.tasks)
  }

  /** In every run a task is started exactly if the helper goes on, the name is not empty and no task in
      the table has it, and fewer than 32 are there. */
  lemma StartedIff(events: seq<Event>, name: Name, pty: bool)
    ensures var s := Run(Initial(), events);
      var after := Next(s, Start(name, pty));
      if !s.closing && name != "" && (forall u <- InTable(s) :: s.tasks[u].name != name) && |InTable(s)| < 32
      then Started(s, after, name, pty) else after == s
  {
    RunKeepsInv(events);
    var s := Run(Initial(), events);
    hide Run, Messages, Window;
    InTableCount(s);
    NamesInTable(s, name);
    hide InTable, Listing;
  }

  lemma NamesInTable(s: Server, name: Name)
    requires Listing(s)
    ensures name in s.table <==> exists u <- InTable(s) :: s.tasks[u].name == name
  {
    if name in s.table { assert s.table[name] in InTable(s); }
  }

  /** A reader waits for a slot or for the queue until its task is stopped or the helper shuts down; then
      it can give up, and takes a slot with it if it held one. */
  lemma GivesUpIff(s: Server, t: nat, r: nat)
    requires HasReader(s, t, r, Pending) || HasReader(s, t, r, Holding)
    ensures HasReader(Next(s, GiveUp(t, r)), t, r, Returned) <==> s.tasks[t].cancelled || s.closing
    ensures var after := Next(Next(s, Stop(t)), GiveUp(t, r));
      HasReader(after, t, r, Returned) && after.tasks[t].slots == s.tasks[t].slots
      && after.tasks[t].leaked == s.tasks[t].leaked + if HasReader(s, t, r, Holding) then 1 else 0
    ensures HasReader(Next(Next(s, Shutdown), GiveUp(t, r)), t, r, Returned)
  {
    if s.tasks[t].cancelled || s.closing { GivesUp(s, t, r); }
    var stopped, closing := Next(s, Stop(t)), Next(s, Shutdown);
    assert stopped == s.(tasks := s.tasks[t := s.tasks[t].(cancelled := true)]) && closing == s.(closing := true);
    GivesUp(stopped, t, r);
    GivesUp(closing, t, r);
    if !(s.tasks[t].cancelled || s.closing) { assert Next(s, GiveUp(t, r)) == s; }
    hide Next;
  }

  lemma GivesUp(s: Server, t: nat, r: nat)
    requires HasReader(s, t, r, Pending) || HasReader(s, t, r, Holding)
    requires s.tasks[t].cancelled || s.closing
    ensures var after := Next(s, GiveUp(t, r));
      HasReader(after, t, r, Returned) && after.tasks[t].slots == s.tasks[t].slots
      && after.tasks[t].leaked == s.tasks[t].leaked + if HasReader(s, t, r, Holding) then 1 else 0
  {}

  /** A task's exit message comes after all its data and at most once. */
  lemma ExitComesLast(events: seq<Event>, i: nat, j: nat)
    requires var s := Run(Initial(), events);
      i < j < |s.queued| && s.queued[i].Exit?
    ensures var s := Run(Initial(), events); s.queued[j].task != s.queued[i].task
  {
    RunKeepsInv(events);
  }

  /** Once it is queued nothing of the task is under way any more. */
  lemma ExitIsFinal(events: seq<Event>, t: nat)
    requires var s := Run(Initial(), events); Exit(t) in s.queued
    ensures var s := Run(Initial(), events);
      t < |s.tasks| && s.tasks[t].done && AllReturned(s.tasks[t].readers) && (s.tasks[t].name in s.table ==> s.table[s.tasks[t].name] != t)
  {
    RunKeepsInv(events);
    var s := Run(Initial(), events);
    var i :| 0 <= i < |s.queued| && s.queued[i] == Exit(t);
    assert Window(s, t);
  }

  // ----- How many messages can be unacknowledged -----

  /** Exactly when an acknowledgement goes astray, and to which task. */
  lemma StrayIff(s: Server, event: Event, u: nat)
    requires Inv(s) && u < |s.tasks|
    ensures u < |Next(s, event).tasks|
    ensures Next(s, event).tasks[u].strays != s.tasks[u].strays <==>
      event.Ack? && event.task < |s.tasks| && MayAck(s, event.task) && event.task != u
      && s.tasks[event.task].name in s.table && s.table[s.tasks[event.task].name] == u && s.tasks[u].slots > 0
  {
    NamesStay(s, event);
    hide Inv, MayAck;
  }

  function Accepted(s: Server, t: nat): nat { multiset(s.queued)[Data(t)] }

  function Unacknowledged(s: Server, t: nat): int
    requires t < |s.tasks| && s.written <= |s.queued|
  {
    Received(s, t) - s.tasks[t].acks
  }

  /** As many as can be unacknowledged from here on: what has been received, once the writer has
      returned; what was accepted, once the readers have; and otherwise the window, one more for
      each slot taken by more than the acknowledgements, one less for each leaked. */
  function Potential(s: Server, t: nat): int
    requires t < |s.tasks| && s.written <= |s.queued|
  {
    if !s.writing then Unacknowledged(s, t)
    else if AllReturned(s.tasks[t].readers) then Accepted(s, t) - s.tasks[t].acks
    else OUTPUT_SLOTS + s.tasks[t].taken - s.tasks[t].acks - s.tasks[t].leaked
  }

  lemma PotentialBounds(s: Server, t: nat)
    requires Inv(s) && t < |s.tasks|
    ensures Unacknowledged(s, t) <= Accepted(s, t) - s.tasks[t].acks
      <= OUTPUT_SLOTS + s.tasks[t].taken - s.tasks[t].acks - s.tasks[t].leaked
    ensures s.tasks[t].taken <= s.tasks[t].acks + s.tasks[t].strays
  {
    assert Window(s, t);
    ReceivedIsAccepted(s, t);
  }

  /** Nothing but a stray acknowledgement ever raises the potential of a task. */
  lemma PotentialStep(s: Server, event: Event, t: nat)
    requires Inv(s) && t < |s.tasks| && t < |Next(s, event).tasks| && Next(s, event).tasks[t].strays == s.tasks[t].strays
    ensures Inv(Next(s, event)) && Potential(Next(s, event), t) <= Potential(s, t)
  {
    StepKeepsInv(s, event);
    PotentialBounds(s, t);
    PotentialBounds(Next(s, event), t);
    match event {
      case Queue(u, r) => QueuedPotential(s, event, t);
      case QueueExit(u) => QueuedPotential(s, event, t);
      case Ack(u) => AckPotential(s, u, t);
      case _ => TaskPotential(s, event, t);
    }
  }

  lemma QueuedPotential(s: Server, event: Event, t: nat)
    requires Inv(s) && t < |s.tasks| && (event.Queue? || event.QueueExit?)
    ensures t < |Next(s, event).tasks| && s.written <= |Next(s, event).queued| && Next(s, event).written == s.written
    ensures Potential(Next(s, event), t) <= Potential(s, t)
  {
    hide Inv, Received;
    var after := Next(s, event);
    WrittenFits(s);
    if after.queued != s.queued {
      var message := after.queued[|s.queued|];
      AppendedCount(s, message, t);
      assert after.queued == s.queued + [message];
    }
    if event.Queue? && after != s {
      assert s.tasks[event.task].readers[event.reader].Holding? && after.tasks[event.task].readers[event.reader].Reading?;
    }
    ReceivedStays(s, after, t);
  }

  lemma WrittenFits(s: Server)
    requires Inv(s)
    ensures s.written <= |s.queued|
  {}

  lemma ReceivedStays(s: Server, after: Server, t: nat)
    requires s.written == after.written <= |s.queued| <= |after.queued| && after.queued[..s.written] == s.queued[..s.written]
    ensures Received(after, t) == Received(s, t)
  {}

  lemma AckPotential(s: Server, u: nat, t: nat)
    requires Inv(s) && t < |s.tasks| && t < |Next(s, Ack(u)).tasks| && Next(s, Ack(u)).tasks[t].strays == s.tasks[t].strays
    ensures Next(s, Ack(u)).written == s.written <= |s.queued| && Next(s, Ack(u)).queued == s.queued
    ensures Potential(Next(s, Ack(u)), t) <= Potential(s, t)
  {
    WrittenFits(s);
    AckMovesTask(s, u, t);
    hide Inv, Received, AllReturned, Next;
    ReceivedStays(s, Next(s, Ack(u)), t);
  }

  lemma AckMovesTask(s: Server, u: nat, t: nat)
    requires t < |s.tasks| && t < |Next(s, Ack(u)).tasks| && Next(s, Ack(u)).tasks[t].strays == s.tasks[t].strays
    ensures var task, after := s.tasks[t], Next(s, Ack(u)).tasks[t];
      && after.acks >= task.acks && after.taken - after.acks <= task.taken - task.acks
      && after.leaked == task.leaked && after.readers == task.readers
    ensures Next(s, Ack(u)).queued == s.queued && Next(s, Ack(u)).writing == s.writing && Next(s, Ack(u)).written == s.written
  {
    hide MayAck;
  }

  /** What the other steps change of a task and its messages. */
  lemma TaskMoves(s: Server, event: Event, t: nat)
    requires t < |s.tasks| && t < |Next(s, event).tasks| && !event.Queue? && !event.QueueExit? && !event.Ack?
    ensures var task, after := s.tasks[t], Next(s, event).tasks[t];
      && after.acks == task.acks && after.taken == task.taken && after.leaked >= task.leaked
      && (AllReturned(task.readers) ==> AllReturned(after.readers))
    ensures Next(s, event).queued == s.queued && (Next(s, event).writing ==> s.writing)
    ensures s.written <= |s.queued| ==> Next(s, event).written <= |s.queued|
    ensures !s.writing ==> Next(s, event).written == s.written
  {
    if event.ReadData? || event.ReadEnd? || event.TakeSlot? || event.GiveUp? {
      ReaderMovesTask(s, event, t);
      hide Next;
    }
    hide HasRoom;
  }

  lemma ReaderMovesTask(s: Server, event: Event, t: nat)
    requires t < |s.tasks| && t < |Next(s, event).tasks| && (event.ReadData? || event.ReadEnd? || event.TakeSlot? || event.GiveUp?)
    ensures var task, after := s.tasks[t], Next(s, event).tasks[t];
      && after.acks == task.acks && after.taken == task.taken && after.leaked >= task.leaked
      && (AllReturned(task.readers) ==> AllReturned(after.readers))
    ensures Next(s, event).queued == s.queued && Next(s, event).writing == s.writing && Next(s, event).written == s.written
  {
    ReturnedStays(s, event, t);
    hide AllReturned;
  }

  lemma ReturnedStays(s: Server, event: Event, t: nat)
    requires t < |s.tasks| && t < |Next(s, event).tasks| && (event.ReadData? || event.ReadEnd? || event.TakeSlot? || event.GiveUp?)
    ensures AllReturned(s.tasks[t].readers) ==> AllReturned(Next(s, event).tasks[t].readers)
  {
    if AllReturned(s.tasks[t].readers) && event.task == t {
      assert Next(s, event) == s;
    }
  }

  lemma TaskPotential(s: Server, event: Event, t: nat)
    requires Inv(s) && Inv(Next(s, event)) && t < |s.tasks| && !event.Queue? && !event.QueueExit? && !event.Ack?
    requires t < |Next(s, event).tasks|
    ensures Potential(Next(s, event), t) <= Potential(s, t)
  {
    var after := Next(s, event);
    PotentialBounds(s, t);
    PotentialBounds(after, t);
    WrittenFits(s);
    WrittenFits(after);
    TaskMoves(s, event, t);
    hide Inv, Received, Next, AllReturned;
    if !s.writing { ReceivedStays(s, after, t); }
  }

  lemma {:induction false} PotentialHolds(s: Server, events: seq<Event>, t: nat)
    requires Inv(s) && t < |s.tasks|
    requires t < |Run(s, events).tasks| && Run(s, events).tasks[t].strays == s.tasks[t].strays
    ensures Inv(Run(s, events)) && Potential(Run(s, events), t) <= Potential(s, t)
  {
    if events != [] {
      var init, event := events[..|events| - 1], events[|events| - 1];
      StraysGrow(s, init, t);
      StraysStep(Run(s, init), event, t);
      PotentialHolds(s, init, t);
      PotentialStep(Run(s, init), event, t);
    }
  }

  lemma StraysStep(s: Server, event: Event, t: nat)
    requires Inv(s) && t < |s.tasks|
    ensures t < |Next(s, event).tasks| && s.tasks[t].strays <= Next(s, event).tasks[t].strays
  {
    NamesStay(s, event);
    hide Inv, MayAck;
  }

  lemma {:induction false} StraysGrow(s: Server, events: seq<Event>, t: nat)
    requires Inv(s) && t < |s.tasks|
    ensures Inv(Run(s, events))
    ensures t < |Run(s, events).tasks| && s.tasks[t].strays <= Run(s, events).tasks[t].strays
  {
    if events != [] {
      var init := events[..|events| - 1];
      StraysGrow(s, init, t);
      StepKeepsInv(Run(s, init), events[|events| - 1]);
      StraysStep(Run(s, init), events[|events| - 1], t);
    }
  }

  /** A continuation without further strays leaves `n` messages of the task unacknowledged. */
  ghost predicate CanLeave(s: Server, t: nat, n: int) { exists events :: Leaves(s, events, t, n) }

  ghost predicate Leaves(s: Server, events: seq<Event>, t: nat, n: int) {
    var after := Run(s, events);
    && t < |s.tasks| && t < |after.tasks| && after.tasks[t].strays == s.tasks[t].strays
    && after.written <= |after.queued| && Unacknowledged(after, t) == n
  }

  lemma {:induction false} RunConcat(s: Server, xs: seq<Event>, ys: seq<Event>)
    ensures Run(s, xs + ys) == Run(Run(s, xs), ys)
  {
    if ys == [] {
      assert xs + ys == xs;
    } else {
      RunConcat(s, xs, ys[..|ys| - 1]);
      assert (xs + ys)[..|xs + ys| - 1] == xs + ys[..|ys| - 1];
    }
  }

  lemma RunOne(s: Server, event: Event)
    ensures Run(s, [event]) == Next(s, event)
  {
    assert [event][..0] == [];
  }

  /** The writer does not wait for the client: as long as it has not returned, and it returns
      only when the server is closing, its own steps bring everything queued to the client,
      whatever is unacknowledged. */
  lemma {:induction false} WriterDelivers(s: Server)
    requires Inv(s) && s.writing
    ensures s.written <= |s.queued| && Run(s, seq(|s.queued| - s.written, _ => Write)) == s.(written := |s.queued|)
    decreases |s.queued| - s.written
  {
    hide Run, Inv;
    WrittenFits(s);
    var n := |s.queued| - s.written;
    if n == 0 {
      RunNothing(s);
      assert seq(n, _ => Write) == [];
    } else {
      StepKeepsInv(s, Write);
      WriterDelivers(Next(s, Write));
      RunConcat(s, [Write], seq(n - 1, _ => Write));
      RunOne(s, Write);
      assert seq(n, _ => Write) == [Write] + seq(n - 1, _ => Write);
    }
  }

  lemma WriterStays(events: seq<Event>)
    ensures var s := Run(Initial(), events); !s.writing ==> s.closing
  {
    RunKeepsInv(events);
  }

  /** Once it has returned at the shutdown nothing reaches the client any more, whatever happens. */
  lemma {:induction false} ReturnedIsSilent(s: Server, events: seq<Event>)
    requires s.closing
    ensures var after := Run(Next(s, WriterReturns), events);
      !after.writing && after.closing && after.written == s.written
  {
    if events != [] {
      ReturnedIsSilent(s, events[..|events| - 1]);
      hide HasReader, HasRoom, MayAck, TakeOut, AllReturned;
    }
  }

  /** Readers and writer have done something, nobody else. */
  ghost predicate Worked(s: Server, after: Server, t: nat) {
    && Inv(after) && after.writing && |after.tasks| == |s.tasks| && t < |s.tasks|
    && var task, a := s.tasks[t], after.tasks[t];
    && |a.readers| == |task.readers| && a.acks == task.acks && a.taken == task.taken
    && a.leaked == task.leaked && a.strays == task.strays
  }

  lemma Drained(s: Server, t: nat) returns (events: seq<Event>)
    requires Inv(s) && s.writing && t < |s.tasks|
    ensures var after := Run(s, events); Worked(s, after, t) && after == s.(written := |s.queued|)
  {
    events := seq(|s.queued| - s.written, _ => Write);
    WriterDelivers(s);
    StraysGrow(s, events, t);
    hide Inv, Run;
  }

  /** A reader that has a slot puts its message on the queue. */
  lemma Released(s: Server, t: nat, r: nat) returns (events: seq<Event>)
    requires Inv(s) && s.writing && HasReader(s, t, r, Holding)
    ensures var after := Run(s, events);
      && Worked(s, after, t) && after.tasks[t].slots == s.tasks[t].slots
      && after.tasks[t].readers == s.tasks[t].readers[r := Reading]
  {
    hide Run;
    var drain := Drained(s, t);
    var drained := Run(s, drain);
    events := drain + [Queue(t, r)];
    RunConcat(s, drain, [Queue(t, r)]);
    RunOne(drained, Queue(t, r));
    StepKeepsInv(drained, Queue(t, r));
    hide Inv;
  }

  lemma {:induction false} AllReleased(s: Server, t: nat, n: nat) returns (events: seq<Event>)
    requires Inv(s) && s.writing && t < |s.tasks| && n <= |s.tasks[t].readers|
    ensures var after := Run(s, events);
      && Worked(s, after, t) && after.tasks[t].slots == s.tasks[t].slots
      && (forall r :: 0 <= r < |s.tasks[t].readers| ==>
            after.tasks[t].readers[r] == if r < n && s.tasks[t].readers[r].Holding? then Reading else s.tasks[t].readers[r])
  {
    hide Run, Inv, HasReader;
    RunNothing(s);
    if n == 0 {
      events := [];
    } else {
      events := AllReleased(s, t, n - 1);
      var released := Run(s, events);
      if s.tasks[t].readers[n - 1].Holding? {
        assert HasReader(released, t, n - 1, Holding) by { ReaderIs(released, t, n - 1, Holding); }
        var more := Released(released, t, n - 1);
        RunConcat(s, events, more);
        events := events + more;
      }
    }
  }

  lemma RunNothing(s: Server)
    ensures Run(s, []) == s
  {}

  lemma ReaderIs(s: Server, t: nat, r: nat, stage: Reader)
    requires t < |s.tasks| && r < |s.tasks[t].readers| && s.tasks[t].readers[r] == stage
    ensures HasReader(s, t, r, stage)
  {}

  /** A reader fills the window, one message after the other. */
  lemma {:induction false} Filled(s: Server, t: nat, r: nat) returns (events: seq<Event>)
    requires Inv(s) && s.writing && (HasReader(s, t, r, Reading) || HasReader(s, t, r, Pending))
    ensures var after := Run(s, events);
      && Worked(s, after, t) && after.tasks[t].slots == OUTPUT_SLOTS
      && (forall u :: 0 <= u < |s.tasks[t].readers| && u != r ==> after.tasks[t].readers[u] == s.tasks[t].readers[u])
      && (after.tasks[t].readers[r].Reading? || after.tasks[t].readers[r].Pending?)
    decreases OUTPUT_SLOTS - s.tasks[t].slots
  {
    SlotBound(s, t);
    if s.tasks[t].slots == OUTPUT_SLOTS {
      events := [];
      assert Run(s, []) == s;
      hide Inv;
    } else {
      var round := OneMessage(s, t, r);
      var rest := Filled(Run(s, round), t, r);
      RunConcat(s, round, rest);
      events := round + rest;
      hide Run, Inv;
    }
  }

  lemma OneMessage(s: Server, t: nat, r: nat) returns (events: seq<Event>)
    requires Inv(s) && s.writing && (HasReader(s, t, r, Reading) || HasReader(s, t, r, Pending)) && s.tasks[t].slots < OUTPUT_SLOTS
    ensures var after := Run(s, events);
      && Worked(s, after, t) && after.tasks[t].slots == s.tasks[t].slots + 1
      && after.tasks[t].readers == s.tasks[t].readers[r := Reading]
  {
    hide Run;
    var a := Next(s, ReadData(t, r));
    StepKeepsInv(s, ReadData(t, r));
    var b := Next(a, TakeSlot(t, r));
    StepKeepsInv(a, TakeSlot(t, r));
    hide Inv;
    assert HasReader(a, t, r, Pending) && HasReader(b, t, r, Holding);
    var release := Released(b, t, r);
    events := [ReadData(t, r)] + [TakeSlot(t, r)] + release;
    RunOne(s, ReadData(t, r));
    RunOne(a, TakeSlot(t, r));
    RunConcat(s, [ReadData(t, r)], [TakeSlot(t, r)]);
    RunConcat(s, [ReadData(t, r)] + [TakeSlot(t, r)], release);
    assert b.tasks[t].readers[r := Reading] == s.tasks[t].readers[r := Reading];
  }

  lemma {:induction false} NoneHolding(readers: seq<Reader>)
    requires forall r :: 0 <= r < |readers| ==> !readers[r].Holding?
    ensures HoldingIn(readers) == 0
  {
    if readers != [] {
      NoneHolding(readers[..|readers| - 1]);
    }
  }

  /** Everything is delivered, and the window is full if any reader is left to fill it. */
  lemma WorkedOut(s: Server, t: nat) returns (events: seq<Event>)
    requires Inv(s) && s.writing && t < |s.tasks|
    ensures var after := Run(s, events);
      && Worked(s, after, t) && after.written == |after.queued|
      && (AllReturned(s.tasks[t].readers) ==> after.queued == s.queued)
      && (!AllReturned(s.tasks[t].readers) ==> after.tasks[t].slots == OUTPUT_SLOTS && HoldingIn(after.tasks[t].readers) == 0)
  {
    if AllReturned(s.tasks[t].readers) {
      events := Drained(s, t);
      return;
    }
    hide Run;
    var r :| 0 <= r < |s.tasks[t].readers| && !s.tasks[t].readers[r].Returned?;
    var release := AllReleased(s, t, |s.tasks[t].readers|);
    var released := Run(s, release);
    var fill := Filled(released, t, r);
    var filled := Run(released, fill);
    var drain := Drained(filled, t);
    NoneHolding(filled.tasks[t].readers);
    RunConcat(s, release, fill);
    RunConcat(s, release + fill, drain);
    events := release + fill + drain;
    hide Inv;
  }

  /** The exact bound: from any state, without further strays, the potential can be reached and
      no more. */
  lemma PotentialIsExact(s: Server, t: nat)
    requires Inv(s) && t < |s.tasks|
    ensures s.written <= |s.queued| && CanLeave(s, t, Potential(s, t))
    ensures forall n :: CanLeave(s, t, n) ==> n <= Potential(s, t)
  {
    WrittenFits(s);
    PotentialIsReached(s, t);
    forall n | CanLeave(s, t, n) ensures n <= Potential(s, t) {
      var events :| Leaves(s, events, t, n);
      PotentialHolds(s, events, t);
      PotentialIsMost(Run(s, events), t);
    }
  }

  lemma PotentialIsMost(s: Server, t: nat)
    requires Inv(s) && t < |s.tasks|
    ensures s.written <= |s.queued| && Unacknowledged(s, t) <= Potential(s, t)
  {
    PotentialBounds(s, t);
  }

  lemma PotentialIsReached(s: Server, t: nat)
    requires Inv(s) && t < |s.tasks| && s.written <= |s.queued|
    ensures CanLeave(s, t, Potential(s, t))
  {
    var events := [];
    if s.writing {
      events := WorkedOut(s, t);
      var after := Run(s, events);
      assert Window(after, t);
      assert after.queued[..after.written] == after.queued;
      assert Received(after, t) == Accepted(after, t);
    } else {
      assert Run(s, []) == s;
    }
    assert Leaves(s, events, t, Potential(s, t));
  }

  /** So more than eight can be unacknowledged if and only if the potential is more than eight,
      and then an acknowledgement has gone astray: it takes a slot taken by more than the
      acknowledgements made up for by no leak, and a reader, or messages accepted already. */
  lemma ExceedsIff(s: Server, t: nat)
    requires Inv(s) && t < |s.tasks|
    ensures s.written <= |s.queued|
    ensures (exists n :: n > OUTPUT_SLOTS && CanLeave(s, t, n)) <==> Potential(s, t) > OUTPUT_SLOTS
    ensures Potential(s, t) > OUTPUT_SLOTS ==> s.tasks[t].taken > s.tasks[t].acks + s.tasks[t].leaked && s.tasks[t].strays > 0
    ensures s.writing && !AllReturned(s.tasks[t].readers) ==>
      (Potential(s, t) > OUTPUT_SLOTS <==> s.tasks[t].taken > s.tasks[t].acks + s.tasks[t].leaked)
  {
    PotentialIsExact(s, t);
    PotentialBounds(s, t);
    hide CanLeave, Inv;
    if Potential(s, t) > OUTPUT_SLOTS {
      assert CanLeave(s, t, Potential(s, t));
    }
  }
}
