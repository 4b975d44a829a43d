/** The FIFO gate in front of an agent and its two clients: user input and the wake-ups of
    background work. */
module RoutingGate {
  import opened Options

  // ----- The gate -----

  /** The `ready` promise of reservation `k`: each is chained to the one before and to that
      reservation's release. */
  predicate Ready(released: seq<bool>, k: nat)
    requires k <= |released|
  {
    k == 0 || (Ready(released, k - 1) && released[k - 1])
  }

  /** A reservation is ready exactly when all earlier ones have been released, in whatever
      order that happened. */
  lemma {:induction false} ReadyIff(released: seq<bool>, k: nat)
    requires k <= |released|
    ensures Ready(released, k) <==> forall j :: 0 <= j < k ==> released[j]
  {
    if k > 0 {
      ReadyIff(released, k - 1);
    }
  }

  function Unreleased(released: seq<bool>): nat {
    if released == [] then 0 else Unreleased(released[..|released| - 1]) + if released[|released| - 1] then 0 else 1
  }

  lemma {:induction false} ReleaseCounts(released: seq<bool>, k: nat)
    requires k < |released| && !released[k]
    ensures Unreleased(released) == Unreleased(released[k := true]) + 1
  {
    var n := |released| - 1;
    if k < n {
      ReleaseCounts(released[..n], k);
      assert released[k := true][..n] == released[..n][k := true];
    } else {
      assert released[k := true][..n] == released[..n];
    }
  }

  lemma {:induction false} NoneUnreleased(released: seq<bool>)
    ensures Unreleased(released) == 0 <==> forall k :: 0 <= k < |released| ==> released[k]
  {
    if released != [] {
      NoneUnreleased(released[..|released| - 1]);
      assert forall k :: 0 <= k < |released| - 1 ==> released[k] == released[..|released| - 1][k];
    }
  }

  class UserMessageRoutingGate {
    var released: seq<bool>
    var reservationCount: nat

    constructor ()
      ensures Valid() && released == []
    {
      released, reservationCount := [], 0;
    }

    ghost predicate Valid()
      reads this
    {
      reservationCount == Unreleased(released)
    }

    /** Busy while any reservation has not been released, whether or not it is ready. */
    method Busy() returns (busy: bool)
      requires Valid()
      ensures busy <==> exists k :: 0 <= k < |released| && !released[k]
    {
      NoneUnreleased(released);
      busy := reservationCount > 0;
    }

    method Reserve() returns (k: nat)
      requires Valid()
      modifies this
      ensures Valid()
      ensures k == |old(released)| && released == old(released) + [false]
    {
      k := |released|;
      assert (released + [false])[..k] == released;
      released := released + [false];
      reservationCount := reservationCount + 1;
    }

    /** Releasing twice is releasing once. */
    method Release(k: nat)
      requires Valid() && k < |released|
      modifies this
      ensures Valid()
      ensures released == old(released)[k := true]
    {
      if released[k] { return; }
      ReleaseCounts(released, k);
      released := released[k := true];
      reservationCount := reservationCount - 1;
    }
  }

  // ----- Input and wake-ups -----

  type QueueId = nat

  datatype Progress = Reserved | Classified(startsTurn: bool, seen: nat) | Released

  /** The holder of each reservation; a wake-up comes from one of several queues. */
  datatype User = Input(progress: Progress) | Wake(progress: Progress, queue: QueueId)

  datatype Entry = Record(k: nat, startsTurn: bool) | Deliver(k: nat, startsTurn: bool) | Idle

  /** One agent: the users of its gate, whether it executes, the queues that have been closed,
      and what has been recorded, delivered and finished so far. */
  datatype Agent = Agent(users: seq<User>, busy: bool, closed: set<QueueId>, log: seq<Entry>)

  function ReleasedFlags(users: seq<User>): (r: seq<bool>)
    ensures |r| == |users| && forall k :: 0 <= k < |users| ==> r[k] == users[k].progress.Released?
  {
    seq(|users|, k requires 0 <= k < |users| => users[k].progress.Released?)
  }

  predicate IsReady(users: seq<User>, k: nat)
    requires k < |users|
  {
    Ready(ReleasedFlags(users), k)
  }

  datatype Event =
    | ReserveInput
    | GiveUp(k: nat)                    // an input is withdrawn before it is routed
    | Classify(k: nat)
    | RecordAndDeliver(k: nat)          // the record is written; the rest follows without a break
    | RecordAndFailToDeliver(k: nat)
    | RecordFails(k: nat)
    | ReserveWake(queue: QueueId)
    | WakeUp(k: nat, blocked: bool)
    | WakeFails(k: nat)
    | Close(queue: QueueId)
    | BecomeBusy
    | BecomeIdle

  function Done(a: Agent, k: nat): Agent
    requires k < |a.users|
  {
    a.(users := a.users[k := a.users[k].(progress := Released)])
  }

  function Next(a: Agent, event: Event): Agent {
    match event
    case ReserveInput => a.(users := a.users + [Input(Reserved)])
    case GiveUp(k) => if IsInput(a, k) && a.users[k].progress.Reserved? then Done(a, k) else a
    case Classify(k) =>
      if IsInput(a, k) && a.users[k].progress.Reserved? && IsReady(a.users, k)
      then a.(users := a.users[k := Input(Classified(!a.busy, |a.log|))]) else a
    case RecordAndDeliver(k) =>
      if !Recording(a, k) then a
      else
        var startsTurn := a.users[k].progress.startsTurn;
        Done(a, k).(log := a.log + [Record(k, startsTurn), Deliver(k, startsTurn)], busy := true)
    case RecordAndFailToDeliver(k) =>
      if !Recording(a, k) then a
      else Done(a, k).(log := a.log + [Record(k, a.users[k].progress.startsTurn)])
    case RecordFails(k) => if Recording(a, k) then Done(a, k) else a
    case ReserveWake(queue) =>
      if queue in a.closed then a else a.(users := a.users + [Wake(Reserved, queue)])
    case WakeUp(k, blocked) =>
      if !WakeWaits(a, k) || !(IsReady(a.users, k) || IsClosed(a, k)) then a
      else if IsClosed(a, k) || blocked then Done(a, k)
      else Done(a, k).(log := a.log + [Deliver(k, !a.busy)], busy := true)
    case WakeFails(k) => if WakeWaits(a, k) && IsReady(a.users, k) && !IsClosed(a, k) then Done(a, k) else a
    case Close(queue) => a.(closed := a.closed + {queue})
    case BecomeBusy => a.(busy := true)
    case BecomeIdle => a.(busy := false, log := a.log + [Idle])
  }

  predicate IsInput(a: Agent, k: nat) { k < |a.users| && a.users[k].Input? }

  predicate Recording(a: Agent, k: nat) { IsInput(a, k) && a.users[k].progress.Classified? }

  predicate WakeWaits(a: Agent, k: nat) { k < |a.users| && a.users[k].Wake? && a.users[k].progress.Reserved? }

  /** The queue a wake-up comes from has been closed. */
  predicate IsClosed(a: Agent, k: nat)
    requires WakeWaits(a, k)
  {
    a.users[k].queue in a.closed
  }

  function Run(a: Agent, events: seq<Event>): Agent {
    if events == [] then a else Next(Run(a, events[..|events| - 1]), events[|events| - 1])
  }

  function Initial(): Agent { Agent([], false, {}, []) }

  // ----- The invariant of all runs -----

  /** A turn has been started and the agent has not been idle since. */
  predicate Outstanding(log: seq<Entry>) {
    log != [] &&
    match log[|log| - 1]
    case Deliver(_, startsTurn) => startsTurn || Outstanding(log[..|log| - 1])
    case Record(_, _) => Outstanding(log[..|log| - 1])
    case Idle => false
  }

  /** No turn is started while another is outstanding. */
  ghost predicate TurnsSeparate(log: seq<Entry>) {
    forall i :: 0 <= i < |log| && log[i].Deliver? && log[i].startsTurn ==> !Outstanding(log[..i])
  }

  /** Every input is recorded right before it is delivered, with the same classification. */
  ghost predicate RecordedFirst(log: seq<Entry>, users: seq<User>) {
    forall i :: 0 <= i < |log| && log[i].Deliver? ==> RecordedAt(log, users, i)
  }

  ghost predicate RecordedAt(log: seq<Entry>, users: seq<User>, i: nat)
    requires i < |log| && log[i].Deliver?
  {
    log[i].k < |users| && (users[log[i].k].Input? ==> i > 0 && log[i - 1] == Record(log[i].k, log[i].startsTurn))
  }

  ghost predicate SameHolders(users: seq<User>, after: seq<User>) {
    |users| <= |after| && forall k :: 0 <= k < |users| ==> users[k].Input? == after[k].Input?
  }

  lemma HoldersKeepRecords(log: seq<Entry>, users: seq<User>, after: seq<User>)
    requires RecordedFirst(log, users) && SameHolders(users, after)
    ensures RecordedFirst(log, after)
  {
    forall i | 0 <= i < |log| && log[i].Deliver? ensures RecordedAt(log, after, i) {
      assert RecordedAt(log, users, i);
    }
  }

  /** An input being recorded holds the gate, nothing was recorded or delivered since it was
      classified, and if it is to start a turn none is outstanding. */
  ghost predicate HoldsGate(a: Agent, k: nat)
    requires k < |a.users|
  {
    a.users[k].progress.Classified? ==>
      && a.users[k].Input?
      && (forall j :: 0 <= j < k ==> a.users[j].progress.Released?)
      && a.users[k].progress.seen <= |a.log|
      && (forall i :: a.users[k].progress.seen <= i < |a.log| ==> a.log[i].Idle?)
      && (a.users[k].progress.startsTurn ==> !Outstanding(a.log))
  }

  ghost predicate Inv(a: Agent) {
    && (forall k :: 0 <= k < |a.users| ==> HoldsGate(a, k))
    && (Outstanding(a.log) ==> a.busy)
    && TurnsSeparate(a.log)
    && RecordedFirst(a.log, a.users)
  }

  lemma OutstandingSnoc(log: seq<Entry>, entry: Entry)
    ensures Outstanding(log + [entry]) == match entry
      case Deliver(_, startsTurn) => startsTurn || Outstanding(log)
      case Record(_, _) => Outstanding(log)
      case Idle => false
  {
    assert (log + [entry])[..|log|] == log;
  }

  lemma LogSnoc(log: seq<Entry>, users: seq<User>, entry: Entry)
    requires TurnsSeparate(log) && RecordedFirst(log, users)
    requires entry.Deliver? && entry.startsTurn ==> !Outstanding(log)
    requires entry.Deliver? ==> entry.k < |users| && (users[entry.k].Input? ==> log != [] && log[|log| - 1] == Record(entry.k, entry.startsTurn))
    ensures TurnsSeparate(log + [entry]) && RecordedFirst(log + [entry], users)
  {
    hide Outstanding;
    var after := log + [entry];
    forall i | 0 <= i < |after| && after[i].Deliver? && after[i].startsTurn ensures !Outstanding(after[..i]) {
      assert after[..i] == log[..i];
      assert log[..|log|] == log;
    }
    RecordsSnoc(log, users, entry);
  }

  lemma RecordsSnoc(log: seq<Entry>, users: seq<User>, entry: Entry)
    requires RecordedFirst(log, users)
    requires entry.Deliver? ==> entry.k < |users| && (users[entry.k].Input? ==> log != [] && log[|log| - 1] == Record(entry.k, entry.startsTurn))
    ensures RecordedFirst(log + [entry], users)
  {
    var after := log + [entry];
    forall i | 0 <= i < |after| && after[i].Deliver? ensures RecordedAt(after, users, i) {
      if i < |log| { assert RecordedAt(log, users, i); }
    }
  }

  /** Which inputs hold the gate after the log has grown or a user has been released. */
  lemma OthersDoNotHold(a: Agent, k: nat)
    requires Inv(a) && k < |a.users| && !a.users[k].progress.Released? && IsReady(a.users, k)
    ensures forall j :: 0 <= j < |a.users| && a.users[j].progress.Classified? ==> j == k
  {
    ReadyIff(ReleasedFlags(a.users), k);
    forall j | 0 <= j < |a.users| && a.users[j].progress.Classified? ensures j == k {
      assert HoldsGate(a, j);
    }
  }

  lemma HolderIsReady(a: Agent, k: nat)
    requires Inv(a) && k < |a.users| && a.users[k].progress.Classified?
    ensures IsReady(a.users, k)
  {
    assert HoldsGate(a, k);
    ReadyIff(ReleasedFlags(a.users), k);
  }

  lemma ReleaseKeepsInv(a: Agent, k: nat)
    requires Inv(a) && k < |a.users|
    ensures Inv(Done(a, k))
  {
    HoldersKeepRecords(a.log, a.users, Done(a, k).users);
    forall j | 0 <= j < |a.users| ensures HoldsGate(Done(a, k), j) {
      assert HoldsGate(a, j);
    }
  }

  lemma RecordKeepsInv(a: Agent, k: nat, deliver: bool)
    requires Inv(a) && Recording(a, k)
    ensures Inv(Next(a, if deliver then RecordAndDeliver(k) else RecordAndFailToDeliver(k)))
  {
    hide Ready, Outstanding;
    HolderIsReady(a, k);
    OthersDoNotHold(a, k);
    assert HoldsGate(a, k);
    var startsTurn := a.users[k].progress.startsTurn;
    var users := Done(a, k).users;
    HoldersKeepRecords(a.log, a.users, users);
    var one := a.log + [Record(k, startsTurn)];
    LogSnoc(a.log, users, Record(k, startsTurn));
    OutstandingSnoc(a.log, Record(k, startsTurn));
    LogSnoc(one, users, Deliver(k, startsTurn));
    OutstandingSnoc(one, Deliver(k, startsTurn));
    assert one + [Deliver(k, startsTurn)] == a.log + [Record(k, startsTurn), Deliver(k, startsTurn)];
  }

  lemma WakeKeepsInv(a: Agent, k: nat)
    requires Inv(a) && WakeWaits(a, k) && IsReady(a.users, k) && !IsClosed(a, k)
    ensures Inv(Next(a, WakeUp(k, false)))
  {
    hide Outstanding, TurnsSeparate, RecordedFirst;
    OthersDoNotHold(a, k);
    var after := Next(a, WakeUp(k, false));
    HoldersKeepRecords(a.log, a.users, after.users);
    LogSnoc(a.log, after.users, Deliver(k, !a.busy));
    forall j | 0 <= j < |after.users| ensures HoldsGate(after, j) {}
  }

  lemma IdleKeepsInv(a: Agent)
    requires Inv(a)
    ensures Inv(Next(a, BecomeIdle))
  {
    LogSnoc(a.log, a.users, Idle);
    OutstandingSnoc(a.log, Idle);
    forall k | 0 <= k < |a.users| ensures HoldsGate(Next(a, BecomeIdle), k) {
      assert HoldsGate(a, k);
    }
  }

  lemma ReserveKeepsInv(a: Agent, user: User)
    requires Inv(a) && user.progress.Reserved?
    ensures Inv(a.(users := a.users + [user]))
  {
    HoldersKeepRecords(a.log, a.users, a.users + [user]);
    forall k | 0 <= k < |a.users| ensures HoldsGate(a.(users := a.users + [user]), k) {
      assert HoldsGate(a, k);
    }
  }

  lemma ClassifyKeepsInv(a: Agent, k: nat)
    requires Inv(a)
    ensures Inv(Next(a, Classify(k)))
  {
    if IsInput(a, k) && a.users[k].progress.Reserved? && IsReady(a.users, k) {
      ReadyIff(ReleasedFlags(a.users), k);
      var after := Next(a, Classify(k));
      HoldersKeepRecords(a.log, a.users, after.users);
      forall j | 0 <= j < |a.users| ensures HoldsGate(after, j) {
        assert HoldsGate(a, j);
      }
    }
  }

  lemma StepKeepsInv(a: Agent, event: Event)
    requires Inv(a)
    ensures Inv(Next(a, event))
  {
    match event {
      case ReserveInput => ReserveKeepsInv(a, Input(Reserved));
      case ReserveWake(queue) => ReserveKeepsInv(a, Wake(Reserved, queue));
      case GiveUp(k) => if k < |a.users| { ReleaseKeepsInv(a, k); }
      case RecordFails(k) => if k < |a.users| { ReleaseKeepsInv(a, k); }
      case WakeFails(k) => if k < |a.users| { ReleaseKeepsInv(a, k); }
      case Classify(k) => ClassifyKeepsInv(a, k);
      case RecordAndDeliver(k) => if Recording(a, k) { RecordKeepsInv(a, k, true); }
      case RecordAndFailToDeliver(k) => if Recording(a, k) { RecordKeepsInv(a, k, false); }
      case WakeUp(k, blocked) =>
        if WakeWaits(a, k) {
          if IsClosed(a, k) || blocked { ReleaseKeepsInv(a, k); }
          else if IsReady(a.users, k) { WakeKeepsInv(a, k); }
        }
      case BecomeIdle => IdleKeepsInv(a);
      case _ => SameUsersAndLog(a, Next(a, event));
    }
  }

  lemma SameUsersAndLog(a: Agent, b: Agent)
    requires Inv(a) && a.users == b.users && a.log == b.log && (a.busy ==> b.busy)
    ensures Inv(b)
  {
    forall k | 0 <= k < |b.users| ensures HoldsGate(b, k) {
      assert HoldsGate(a, k);
    }
  }

  lemma {:induction false} RunKeepsInv(events: seq<Event>)
    ensures Inv(Run(Initial(), events))
  {
    if events != [] {
      RunKeepsInv(events[..|events| - 1]);
      StepKeepsInv(Run(Initial(), events[..|events| - 1]), events[|events| - 1]);
    }
  }

  // ----- What every run keeps -----

  /** No two turns are ever started without the agent having been idle in between, and every
      input is on record before the agent sees it. */
  lemma TurnsSeparateAndRecorded(events: seq<Event>)
    ensures var a := Run(Initial(), events); TurnsSeparate(a.log) && RecordedFirst(a.log, a.users)
  {
    RunKeepsInv(events);
  }

  /** Whoever is ready and has not released excludes every other user of the gate. */
  lemma OneHolder(events: seq<Event>, j: nat, k: nat)
    requires var a := Run(Initial(), events);
      && j < |a.users| && k < |a.users|
      && IsReady(a.users, j) && IsReady(a.users, k)
      && !a.users[j].progress.Released? && !a.users[k].progress.Released?
    ensures j == k
  {
    var flags := ReleasedFlags(Run(Initial(), events).users);
    ReadyIff(flags, j);
    ReadyIff(flags, k);
  }

  /** From the classification of an input to its delivery nobody else records or delivers: the
      log grows only by its own two entries and by the agent becoming idle. */
  lemma NothingBetween(events: seq<Event>, k: nat)
    requires var a := Run(Initial(), events); Recording(a, k)
    ensures var a := Run(Initial(), events);
      var after := Next(a, RecordAndDeliver(k));
      var seen, startsTurn := a.users[k].progress.seen, a.users[k].progress.startsTurn;
      && seen <= |a.log| && (forall i :: seen <= i < |a.log| ==> a.log[i].Idle?)
      && after.log == a.log + [Record(k, startsTurn), Deliver(k, startsTurn)]
      && (startsTurn ==> !Outstanding(a.log))
  {
    RunKeepsInv(events);
    assert HoldsGate(Run(Initial(), events), k);
  }

  /** Nobody waits for ever: the first user that has not released is ready, and while there is
      none the gate is free for the next. */
  lemma FirstWaiterIsReady(users: seq<User>, k: nat)
    requires k < |users| && forall j :: 0 <= j < k ==> users[j].progress.Released?
    ensures IsReady(users, k)
  {
    ReadyIff(ReleasedFlags(users), k);
  }

  /** No wake-up of a closed queue is delivered, and none without holding the gate. */
  lemma WakeUpsHoldTheGate(events: seq<Event>, event: Event, k: nat)
    requires var a := Run(Initial(), events); k < |a.users| && a.users[k].Wake?
    requires var a := Run(Initial(), events);
      |Next(a, event).log| > |a.log| && Next(a, event).log[|a.log|].Deliver? && Next(a, event).log[|a.log|].k == k
    ensures var a := Run(Initial(), events);
      && a.users[k].queue !in a.closed && IsReady(a.users, k)
      && forall j :: 0 <= j < k ==> a.users[j].progress.Released?
  {
    var a := Run(Initial(), events);
    assert event == WakeUp(k, false);
    ReadyIff(ReleasedFlags(a.users), k);
  }

  // ----- What an input is classified as -----

  /** In every run an input that comes to its turn joins a turn that is outstanding, and starts
      one exactly when the agent is not busy. */
  lemma ClassifiedRightly(events: seq<Event>, k: nat)
    requires var a := Run(Initial(), events);
      IsInput(a, k) && a.users[k].progress.Reserved? && IsReady(a.users, k)
    ensures var a := Run(Initial(), events);
      var after := Next(a, Classify(k)).users[k].progress;
      && after.Classified? && (after.startsTurn <==> !a.busy)
      && (Outstanding(a.log) ==> !after.startsTurn)
  {
    RunKeepsInv(events);
  }

  /** In every run an input that cannot be recorded leaves no trace but its free place: the next
      one in line is ready, and starts the turn itself if the agent is still not busy. */
  lemma FailureLetsNextStart(events: seq<Event>, k: nat, next: nat)
    requires var a := Run(Initial(), events);
      && Recording(a, k) && k < next && IsInput(a, next) && a.users[next].progress.Reserved?
      && forall j :: k < j < next ==> a.users[j].progress.Released?
    ensures var a := Run(Initial(), events);
      var after := Next(a, RecordFails(k));
      && after.log == a.log && after.busy == a.busy && IsReady(after.users, next)
      && Next(after, Classify(next)).users[next] == Input(Classified(!a.busy, |a.log|))
  {
    RunKeepsInv(events);
    var a := Run(Initial(), events);
    assert HoldsGate(a, k);
    ReadyIff(ReleasedFlags(Next(a, RecordFails(k)).users), next);
  }

  // ----- How a place in the line is given up -----

  /** Only the place of `k` is given up, for good. */
  predicate GivesUp(a: Agent, after: Agent, k: nat)
    requires k < |a.users|
  {
    && |after.users| == |a.users| && after.users[k].progress.Released?
    && (forall j :: 0 <= j < |a.users| && j != k ==> after.users[j] == a.users[j])
    && after.closed == a.closed
  }

  /** Whoever joins the line joins at its end, and is ready exactly when all before it are released; a
      closed queue cannot join. */
  lemma JoinsAtTheEnd(a: Agent, queue: QueueId)
    ensures var k, input, wake := |a.users|, Next(a, ReserveInput), Next(a, ReserveWake(queue));
      && |input.users| == k + 1 && input.users[..k] == a.users && input.log == a.log
      && IsInput(input, k) && input.users[k].progress.Reserved?
      && (IsReady(input.users, k) <==> forall j :: 0 <= j < k ==> a.users[j].progress.Released?)
      && if queue in a.closed then wake == a else
           && |wake.users| == k + 1 && wake.users[..k] == a.users && wake.log == a.log
           && WakeWaits(wake, k) && wake.users[k].queue == queue
           && (IsReady(wake.users, k) <==> forall j :: 0 <= j < k ==> a.users[j].progress.Released?)
  {
    var k, input, wake := |a.users|, Next(a, ReserveInput), Next(a, ReserveWake(queue));
    ReadyIff(ReleasedFlags(input.users), k);
    assert forall j :: 0 <= j < k ==> input.users[j] == a.users[j];
    if queue !in a.closed {
      ReadyIff(ReleasedFlags(wake.users), k);
      assert forall j :: 0 <= j < k ==> wake.users[j] == a.users[j];
    }
    hide Ready;
  }

  /** A recorded input holds its place until it is delivered or has failed; in either case the record
      stays, and the agent is busy exactly if it has been delivered or was before. */
  lemma RecordOutcome(a: Agent, k: nat)
    requires Recording(a, k)
    ensures var startsTurn := a.users[k].progress.startsTurn;
      var delivered, failed := Next(a, RecordAndDeliver(k)), Next(a, RecordAndFailToDeliver(k));
      && GivesUp(a, delivered, k) && delivered.busy && delivered.log == a.log + [Record(k, startsTurn)] + [Deliver(k, startsTurn)]
      && GivesUp(a, failed, k) && failed.busy == a.busy && failed.log == a.log + [Record(k, startsTurn)]
  {
    assert [Record(k, a.users[k].progress.startsTurn), Deliver(k, a.users[k].progress.startsTurn)]
        == [Record(k, a.users[k].progress.startsTurn)] + [Deliver(k, a.users[k].progress.startsTurn)];
  }

  /** A wake-up whose queue has been closed leaves the line without waiting for its turn. */
  lemma ClosedLeaves(a: Agent, k: nat, blocked: bool)
    requires WakeWaits(a, k) && a.users[k].queue in a.closed
    ensures var after := Next(a, WakeUp(k, blocked)); GivesUp(a, after, k) && after.log == a.log && after.busy == a.busy
  {}

  /** What becomes of a wake-up whose turn has come. It is delivered, as a turn of its own exactly if the agent is
      not busy, unless its queue is closed, it is blocked or it fails. In every case the next in line is ready. */
  lemma WakeUpOutcome(a: Agent, k: nat, blocked: bool, next: nat)
    requires WakeWaits(a, k) && k < next <= |a.users|
    requires forall j :: 0 <= j < next && j != k ==> a.users[j].progress.Released?
    ensures var after := Next(a, WakeUp(k, blocked));
      && GivesUp(a, after, k)
      && (next < |a.users| ==> IsReady(after.users, next))
      && if a.users[k].queue in a.closed || blocked then after.log == a.log && after.busy == a.busy
         else after.log == a.log + [Deliver(k, !a.busy)] && after.busy
    ensures a.users[k].queue !in a.closed ==>
      var after := Next(a, WakeFails(k));
      GivesUp(a, after, k) && after.log == a.log && after.busy == a.busy && (next < |a.users| ==> IsReady(after.users, next))
  {
    ReadyIff(ReleasedFlags(a.users), k);
    if next < |a.users| {
      ReadyIff(ReleasedFlags(Done(a, k).users), next);
    }
  }

  /** Whether an input starts a turn is decided by the agent's state at that moment: after idling it
      does, after other work has begun it joins. */
  lemma AgentDecides(a: Agent, k: nat)
    requires IsInput(a, k) && a.users[k].progress.Reserved? && IsReady(a.users, k)
    ensures Next(Next(a, BecomeIdle), Classify(k)).users[k] == Input(Classified(true, |a.log| + 1))
    ensures Next(Next(a, BecomeBusy), Classify(k)).users[k] == Input(Classified(false, |a.log|))
    ensures var after := Next(a, GiveUp(k)); GivesUp(a, after, k) && after.log == a.log && after.busy == a.busy
  {}

  predicate WakeOf(users: seq<User>, k: nat, queue: QueueId) {
    k < |users| && users[k].Wake? && users[k].queue == queue
  }

  /** What a closed queue has in the line was there before, and none of it was delivered since. */
  ghost predicate Silent(a: Agent, after: Agent, queue: QueueId) {
    && queue in after.closed && |a.users| <= |after.users| && |a.log| <= |after.log|
    && (forall k: nat :: WakeOf(after.users, k, queue) ==> WakeOf(a.users, k, queue))
    && (forall i :: |a.log| <= i < |after.log| && after.log[i].Deliver? ==>
          after.log[i].k < |after.users| && !WakeOf(after.users, after.log[i].k, queue))
  }

  /** Once a queue is closed it takes no more places in the line and no wake-up of it is delivered,
      whatever happens afterwards. */
  lemma {:induction false} ClosedIsSilent(a: Agent, queue: QueueId, events: seq<Event>)
    ensures Silent(a, Run(Next(a, Close(queue)), events), queue)
  {
    if events != [] {
      ClosedIsSilent(a, queue, events[..|events| - 1]);
      SilentStep(a, Run(Next(a, Close(queue)), events[..|events| - 1]), queue, events[|events| - 1]);
      hide Silent, Next;
    }
  }

  lemma SilentStep(a: Agent, b: Agent, queue: QueueId, event: Event)
    requires Silent(a, b, queue)
    ensures Silent(a, Next(b, event), queue)
  {
    hide Ready, ReleasedFlags;
  }
}
