/** The work bracket of a session runtime: what starts and ends a stretch of work, and what
    the closing fact says about it. */
module WorkBrackets {
  import opened Options

  type TurnId = nat
  type Message = string

  datatype Phase = Preparing | Accepted

  datatype WorkOutcome = Completed | Stopped | Failed

  datatype StopReason = TurnCompleted | TurnFailed | OtherReason

  /** The events that bear on the bracket. */
  datatype RuntimeEvent =
    | MessageInjected(startsTurn: bool)
    | TurnEnd(turn: TurnId, reason: StopReason)
    | ErrorEvent(message: Message)
    | StatusIdle
    | StatusError
    | OtherEvent

  /** The history of a runtime: events as they come in, stops by the user, and the facts
      published about work. */
  datatype Entry =
    | Saw(event: RuntimeEvent)
    | UserStop
    | Started
    | Discarded
    | Finished(outcome: WorkOutcome, error: Option<Message>, forkTurn: Option<TurnId>, btw: bool)

  /** Work has been started and not ended. */
  predicate Open(log: seq<Entry>) {
    log != [] &&
    match log[|log| - 1]
    case Started => true
    case Discarded | Finished(_, _, _, _) => false
    case _ => Open(log[..|log| - 1])
  }

  /** Starts and ends alternate. */
  ghost predicate Bracketed(log: seq<Entry>) {
    forall i :: 0 <= i < |log| ==>
      (log[i].Started? ==> !Open(log[..i])) && (log[i].Discarded? || log[i].Finished? ==> Open(log[..i]))
  }

  /** How the current work stands: the latest failure or stop decides. */
  function OutcomeOf(log: seq<Entry>): WorkOutcome {
    if log == [] then Completed
    else
      var before := log[..|log| - 1];
      match log[|log| - 1]
      case Started | Discarded | Finished(_, _, _, _) => Completed
      case Saw(TurnEnd(_, TurnFailed)) | Saw(StatusError) => Failed
      case UserStop => if Open(before) then Stopped else OutcomeOf(before)
      case _ => OutcomeOf(before)
  }

  /** The latest error of the current work, unless a turn has completed since. */
  function ErrorOf(log: seq<Entry>): Option<Message> {
    if log == [] then None
    else
      var before := log[..|log| - 1];
      match log[|log| - 1]
      case Started | Discarded | Finished(_, _, _, _) | Saw(TurnEnd(_, TurnCompleted)) => None
      case Saw(ErrorEvent(message)) => if Open(before) then Some(message) else ErrorOf(before)
      case _ => ErrorOf(before)
  }

  /** The turn the current work has just completed, if nothing has gone wrong since. */
  function ForkOf(log: seq<Entry>): Option<TurnId> {
    if log == [] then None
    else
      var before := log[..|log| - 1];
      match log[|log| - 1]
      case Started | Discarded | Finished(_, _, _, _) | Saw(ErrorEvent(_)) | Saw(StatusError) => None
      case Saw(TurnEnd(turn, reason)) => if reason.TurnCompleted? then Some(turn) else None
      case _ => ForkOf(before)
  }

  /** Work began at `s` and has not ended. */
  ghost predicate StartedAt(log: seq<Entry>, s: nat) {
    && s < |log| && log[s].Started?
    && forall m :: s < m < |log| ==> !(log[m].Started? || log[m].Discarded? || log[m].Finished?)
  }

  lemma {:induction false} OpenIff(log: seq<Entry>)
    ensures Open(log) <==> exists s: nat :: StartedAt(log, s)
  {
    if log != [] {
      var k := |log| - 1;
      var init := log[..k];
      OpenIff(init);
      forall s: nat | s < k ensures StartedAt(log, s) <==> StartedAt(init, s) && !(log[k].Started? || log[k].Discarded? || log[k].Finished?) {
        forall m | s < m < k ensures init[m] == log[m] {}
      }
      assert StartedAt(log, k) <==> log[k].Started?;
    }
  }

  predicate EndsFork(entry: Entry) {
    match entry
    case Started | Discarded | Finished(_, _, _, _) | Saw(ErrorEvent(_)) | Saw(StatusError) | Saw(TurnEnd(_, _)) => true
    case _ => false
  }

  /** A turn completed at `k`, and since then neither an error nor the end of anything came. */
  ghost predicate CompletedAt(log: seq<Entry>, k: nat, turn: TurnId) {
    && k < |log| && log[k] == Saw(TurnEnd(turn, TurnCompleted))
    && forall m :: k < m < |log| ==> !EndsFork(log[m])
  }

  lemma {:induction false} ForkIff(log: seq<Entry>, turn: TurnId)
    ensures ForkOf(log) == Some(turn) <==> exists k: nat :: CompletedAt(log, k, turn)
  {
    if log != [] {
      var n := |log| - 1;
      var init := log[..n];
      ForkIff(init, turn);
      forall k: nat | k < n ensures CompletedAt(log, k, turn) <==> CompletedAt(init, k, turn) && !EndsFork(log[n]) {
        forall m | k < m < n ensures init[m] == log[m] {}
      }
      assert CompletedAt(log, n, turn) <==> log[n] == Saw(TurnEnd(turn, TurnCompleted));
    }
  }

  /** The turns that failed, and the stops by the user: the latest one decides how work ends. */
  predicate Decides(entry: Entry) {
    match entry
    case Saw(TurnEnd(_, TurnFailed)) | Saw(StatusError) | UserStop => true
    case _ => false
  }

  ghost predicate DecidedAt(log: seq<Entry>, k: nat) {
    k < |log| && Decides(log[k]) && forall m :: k < m < |log| ==> !Decides(log[m])
  }

  /** What came before has no bearing on a stretch that goes on. */
  lemma StartedBefore(log: seq<Entry>, s: nat)
    requires StartedAt(log, s)
    ensures Open(log)
    ensures s < |log| - 1 ==>
      StartedAt(log[..|log| - 1], s) && !(log[|log| - 1].Started? || log[|log| - 1].Discarded? || log[|log| - 1].Finished?)
  {
    OpenIff(log);
  }

  /** Open work has failed, or was stopped, exactly if that is the latest that decided since it began. */
  lemma {:induction false} OutcomeIff(log: seq<Entry>, s: nat)
    requires StartedAt(log, s)
    ensures OutcomeOf(log).Failed? <==> exists k: nat :: s < k && DecidedAt(log, k) && log[k].Saw?
    ensures OutcomeOf(log).Stopped? <==> exists k: nat :: s < k && DecidedAt(log, k) && log[k].UserStop?
  {
    StartedBefore(log, s);
    var n := |log| - 1;
    var init := log[..n];
    if s < n {
      OutcomeIff(init, s);
      OpenIff(init);
      forall k: nat | k < n ensures DecidedAt(log, k) <==> DecidedAt(init, k) && !Decides(log[n]) {
        forall m | k < m < n ensures init[m] == log[m] {}
      }
      assert DecidedAt(log, n) <==> Decides(log[n]);
    }
  }

  predicate TellsError(entry: Entry) {
    match entry
    case Saw(ErrorEvent(_)) | Saw(TurnEnd(_, TurnCompleted)) => true
    case _ => false
  }

  ghost predicate ErredAt(log: seq<Entry>, k: nat, message: Message) {
    k < |log| && log[k] == Saw(ErrorEvent(message)) && forall m :: k < m < |log| ==> !TellsError(log[m])
  }

  /** The error of open work is the latest since it began, if no turn has completed after it. */
  lemma {:induction false} ErrorIff(log: seq<Entry>, s: nat, message: Message)
    requires StartedAt(log, s)
    ensures ErrorOf(log) == Some(message) <==> exists k: nat :: s < k && ErredAt(log, k, message)
  {
    StartedBefore(log, s);
    var n := |log| - 1;
    var init := log[..n];
    if s < n {
      ErrorIff(init, s, message);
      OpenIff(init);
      forall k: nat | k < n ensures ErredAt(log, k, message) <==> ErredAt(init, k, message) && !TellsError(log[n]) {
        forall m | k < m < n ensures init[m] == log[m] {}
      }
      assert ErredAt(log, n, message) <==> log[n] == Saw(ErrorEvent(message));
    }
  }

  /** What a closing fact has to say. Work ended for a side conversation is told its outcome. */
  ghost predicate Truthful(log: seq<Entry>) {
    forall i :: 0 <= i < |log| && log[i].Finished? ==> TruthfulAt(log, i)
  }

  ghost predicate TruthfulAt(log: seq<Entry>, i: nat)
    requires i < |log| && log[i].Finished?
  {
    var fact := log[i];
    && (fact.error.Some? ==> fact.outcome.Failed?)
    && (fact.forkTurn.Some? ==> fact.outcome.Completed?)
    && fact.error == (if fact.outcome.Failed? then ErrorOf(log[..i]) else None)
    && (!fact.btw ==> fact.outcome == OutcomeOf(log[..i]))
    && fact.forkTurn == (if fact.outcome.Completed? && !fact.btw then ForkOf(log[..i]) else None)
  }

  lemma LogSnoc(log: seq<Entry>, entry: Entry)
    requires Bracketed(log) && Truthful(log)
    requires entry.Started? ==> !Open(log)
    requires entry.Discarded? || entry.Finished? ==> Open(log)
    requires entry.Finished? ==> TruthfulAt(log + [entry], |log|)
    ensures Bracketed(log + [entry]) && Truthful(log + [entry])
    ensures (log + [entry])[..|log|] == log
  {
    hide Open, OutcomeOf, ErrorOf, ForkOf;
    var after := log + [entry];
    assert after[..|log|] == log;
    forall i | 0 <= i < |log| ensures after[..i] == log[..i] {}
    forall i | 0 <= i < |log| && log[i].Finished? ensures TruthfulAt(after, i) {
      assert TruthfulAt(log, i);
    }
  }

  lemma SawSnoc(log: seq<Entry>, event: RuntimeEvent)
    ensures var after := log + [Saw(event)];
      && Open(after) == Open(log)
      && OutcomeOf(after) == (if event.StatusError? || (event.TurnEnd? && event.reason.TurnFailed?) then Failed else OutcomeOf(log))
      && ErrorOf(after) == (if event.TurnEnd? && event.reason.TurnCompleted? then None
                            else if event.ErrorEvent? && Open(log) then Some(event.message) else ErrorOf(log))
      && ForkOf(after) == (if event.TurnEnd? then if event.reason.TurnCompleted? then Some(event.turn) else None
                           else if event.ErrorEvent? || event.StatusError? then None else ForkOf(log))
  {
    assert (log + [Saw(event)])[..|log|] == log;
  }

  class DesktopSessionRuntime {
    var work: Option<Phase>
    var workOutcome: WorkOutcome
    var workError: Option<Message>
    var forkTurnId: Option<TurnId>
    var btwWorkActive: bool
    var disposed: bool
    ghost var log: seq<Entry>

    constructor ()
      ensures Valid() && log == [] && !disposed
    {
      work, workOutcome, workError, forkTurnId, btwWorkActive, disposed := None, Completed, None, None, false, false;
      log := [];
    }

    ghost predicate Valid()
      reads this
    {
      && (work.Some? <==> Open(log))
      && workOutcome == OutcomeOf(log) && workError == ErrorOf(log) && forkTurnId == ForkOf(log)
      && Bracketed(log) && Truthful(log)
    }

    method BeginWork(phase: Phase)
      requires Valid()
      modifies this`work, this`workOutcome, this`workError, this`forkTurnId, this`log
      ensures Valid()
      ensures log == if disposed || old(work).Some? then old(log) else old(log) + [Started]
      ensures !disposed ==> work.Some? && (work.value == phase || (old(work) == Some(Accepted) && phase.Preparing?))
      ensures disposed ==> work == old(work)
    {
      if disposed { return; }
      if work.Some? {
        if phase.Accepted? { work := Some(Accepted); }
        return;
      }
      LogSnoc(log, Started);
      workOutcome, workError, forkTurnId := Completed, None, None;
      work := Some(phase);
      log := log + [Started];
    }

    /** Work that was only being prepared is discarded; accepted work is closed by a fact. */
    method FinishWork()
      requires Valid()
      modifies this`work, this`workOutcome, this`workError, this`forkTurnId, this`log
      ensures Valid()
      ensures disposed ==> work == old(work)
      ensures !disposed ==> work.None?
      ensures log == if disposed || old(work).None? then old(log)
        else old(log) + [if old(work) == Some(Preparing) then Discarded
                         else Finished(OutcomeOf(old(log)),
                                       if OutcomeOf(old(log)).Failed? then ErrorOf(old(log)) else None,
                                       if OutcomeOf(old(log)).Completed? then ForkOf(old(log)) else None,
                                       false)]
    {
      if disposed || work.None? { return; }
      var phase := work.value;
      work := None;
      var error := if workOutcome.Failed? then workError else None;
      var forkTurn := if workOutcome.Completed? then forkTurnId else None;
      var fact := if phase.Preparing? then Discarded else Finished(workOutcome, error, forkTurn, false);
      assert (log + [fact])[..|log|] == log;
      LogSnoc(log, fact);
      workOutcome, workError, forkTurnId := Completed, None, None;
      log := log + [fact];
    }

    method Emit(event: RuntimeEvent)
      requires Valid()
      modifies this`work, this`workOutcome, this`workError, this`forkTurnId, this`log
      ensures Valid()
      ensures disposed ==> log == old(log)
      ensures !disposed ==> old(log) + [Saw(event)] <= log
      ensures !disposed ==>
        var begins := event == MessageInjected(true) && old(work).None?;
        var ends := (event.StatusIdle? || event.StatusError?) && !btwWorkActive && old(work).Some?;
        && |log| == |old(log)| + 1 + (if begins || ends then 1 else 0)
        && (begins ==> log[|log| - 1] == Started)
        && (ends ==> if old(work) == Some(Preparing) then log[|log| - 1] == Discarded else log[|log| - 1].Finished? && !log[|log| - 1].btw)
      ensures !disposed && (event.StatusIdle? || event.StatusError?) && !btwWorkActive ==> work.None?
      ensures !disposed && event == MessageInjected(true) ==> work == Some(Accepted)
    {
      hide Open, OutcomeOf, ErrorOf, ForkOf, Bracketed, Truthful;
      if disposed { return; }
      Note(event);
      if event == MessageInjected(true) { BeginWork(Accepted); }
      if (event.StatusIdle? || event.StatusError?) && !btwWorkActive { FinishWork(); }
    }

    /** What an event changes of the record of the current work. */
    method Note(event: RuntimeEvent)
      requires Valid()
      modifies this`workOutcome, this`workError, this`forkTurnId, this`log
      ensures Valid() && log == old(log) + [Saw(event)]
    {
      hide Open, OutcomeOf, ErrorOf, ForkOf, Bracketed, Truthful;
      LogSnoc(log, Saw(event));
      SawSnoc(log, event);
      match event {
        case TurnEnd(turn, reason) =>
          forkTurnId := if reason.TurnCompleted? then Some(turn) else None;
          if reason.TurnFailed? { workOutcome := Failed; }
          else if reason.TurnCompleted? { workError := None; }
        case ErrorEvent(message) =>
          forkTurnId := None;
          if work.Some? { workError := Some(message); }
        case StatusError =>
          forkTurnId := None;
          workOutcome := Failed;
        case _ =>
      }
      log := log + [Saw(event)];
    }

    /** The user's abort, before and after it waits for the input in delivery. */
    method StopByUser()
      requires Valid()
      modifies this`workOutcome, this`log
      ensures Valid() && log == old(log) + [UserStop]
      ensures workOutcome == if work.Some? then Stopped else old(workOutcome)
    {
      LogSnoc(log, UserStop);
      if work.Some? { workOutcome := Stopped; }
      log := log + [UserStop];
    }

    method BeginBtwWork() returns (ok: bool)
      requires Valid()
      modifies this`work, this`workOutcome, this`workError, this`forkTurnId, this`btwWorkActive, this`log
      ensures Valid() && ok == !old(btwWorkActive)
      ensures !ok ==> log == old(log) && btwWorkActive
      ensures ok ==> btwWorkActive && (!disposed ==> work == Some(Accepted))
      ensures ok ==> log == if disposed || old(work).Some? then old(log) else old(log) + [Started]
    {
      if btwWorkActive { return false; }
      btwWorkActive := true;
      BeginWork(Accepted);
      ok := true;
    }

    method BeginQueuedTurn()
      requires Valid()
      modifies this`work, this`workOutcome, this`workError, this`forkTurnId, this`log
      ensures Valid()
      ensures disposed ==> log == old(log) && work == old(work)
      ensures !disposed ==> work == Some(Accepted) && old(log) <= log && log[|log| - 1] == Started
      ensures !disposed ==> |log| == |old(log)| + (if old(work).Some? then 2 else 1)
    {
      FinishWork();
      BeginWork(Accepted);
    }

    method FinishBtwWork(outcome: WorkOutcome, continuesWithMainWork: bool)
      requires Valid()
      modifies this`work, this`workOutcome, this`workError, this`forkTurnId, this`btwWorkActive, this`log
      ensures Valid()
      ensures disposed || !old(btwWorkActive) || old(work).None? ==> log == old(log) && work == old(work)
      ensures !disposed && old(btwWorkActive) && old(work).Some? ==>
        && !btwWorkActive
        && work == (if continuesWithMainWork then Some(Accepted) else None)
        && log == old(log) + [Finished(outcome, if outcome.Failed? then ErrorOf(old(log)) else None, None, true)]
                  + if continuesWithMainWork then [Started] else []
    {
      if disposed || !btwWorkActive || work.None? { return; }
      btwWorkActive := false;
      work := None;
      var fact := Finished(outcome, if outcome.Failed? then workError else None, None, true);
      assert (log + [fact])[..|log|] == log;
      LogSnoc(log, fact);
      workOutcome, workError, forkTurnId := Completed, None, None;
      log := log + [fact];
      if continuesWithMainWork { BeginWork(Accepted); }
    }

    method Dispose(busy: bool) returns (ok: bool)
      requires Valid()
      modifies this`disposed
      ensures Valid() && ok == (old(disposed) || !busy)
      ensures disposed == (old(disposed) || ok)
    {
      if disposed { return true; }
      if busy { return false; }
      disposed := true;
      ok := true;
    }

    /** Of any two starts one end lies between. */
    lemma FactsAreTrue(i: nat, j: nat)
      requires Valid() && i < j < |log| && log[i].Started? && log[j].Started?
      ensures exists k :: i < k < j && (log[k].Finished? || log[k].Discarded?)
    {
      assert !Open(log[..j]);
      EndBetween(log, i, j);
    }

    /** What a closing fact says is what the work it closes has seen: it failed or was stopped by the
        user exactly if that came last of the two, and it tells the latest error, of failed work alone,
        if no turn has completed since. */
    lemma OutcomesAreEarned(i: nat, message: Message)
      requires Valid() && i < |log| && log[i].Finished?
      ensures exists s: nat :: StartedAt(log[..i], s)
      ensures forall s: nat :: StartedAt(log[..i], s) && !log[i].btw ==>
        && (log[i].outcome.Failed? <==> exists k: nat :: s < k && DecidedAt(log[..i], k) && log[k].Saw?)
        && (log[i].outcome.Stopped? <==> exists k: nat :: s < k && DecidedAt(log[..i], k) && log[k].UserStop?)
      ensures forall s: nat :: StartedAt(log[..i], s) ==>
        (log[i].error == Some(message) <==> log[i].outcome.Failed? && exists k: nat :: s < k && ErredAt(log[..i], k, message))
    {
      var before := log[..i];
      assert TruthfulAt(log, i) && Open(before);
      OpenIff(before);
      hide Open, OutcomeOf, ErrorOf, ForkOf, Bracketed, Truthful;
      forall s: nat | StartedAt(before, s)
        ensures OutcomeOf(before).Failed? <==> exists k: nat :: s < k && DecidedAt(before, k) && before[k].Saw?
        ensures OutcomeOf(before).Stopped? <==> exists k: nat :: s < k && DecidedAt(before, k) && before[k].UserStop?
        ensures ErrorOf(before) == Some(message) <==> exists k: nat :: s < k && ErredAt(before, k, message)
      {
        OutcomeIff(before, s);
        ErrorIff(before, s, message);
      }
    }

    /** A fork is offered exactly of a turn that completed in the very work being closed, as the
        last thing that ended in it and with no error since, when the work closes as completed
        and not for a side conversation. */
    lemma ForksAreEarned(i: nat, turn: TurnId)
      requires Valid() && i < |log| && log[i].Finished?
      ensures log[i].forkTurn == Some(turn) <==>
        && log[i].outcome.Completed? && !log[i].btw
        && exists s: nat, k: nat :: s < k && StartedAt(log[..i], s) && CompletedAt(log[..i], k, turn)
    {
      var before := log[..i];
      assert TruthfulAt(log, i) && Open(before);
      OpenIff(before);
      ForkIff(before, turn);
      forall s: nat, k: nat | StartedAt(before, s) && CompletedAt(before, k, turn) ensures s < k {
        assert EndsFork(before[s]);
      }
    }
  }

  lemma {:induction false} EndBetween(log: seq<Entry>, i: nat, j: nat)
    requires i < j <= |log| && log[i].Started? && !Open(log[..j])
    ensures exists k :: i < k < j && (log[k].Finished? || log[k].Discarded?)
    decreases j
  {
    assert log[..j][..j - 1] == log[..j - 1];
    if i < j - 1 && !(log[j - 1].Finished? || log[j - 1].Discarded?) {
      EndBetween(log, i, j - 1);
    }
  }
}
