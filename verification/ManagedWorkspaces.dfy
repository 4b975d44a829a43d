/** One managed workspace: its manifest, its directory and the mutations queued for it.
    Every file system operation is one atomic step, and the user's programs, creation,
    failures and crashes may come between any two. */
module ManagedWorkspaces {
  import opened Options
  import opened WorkspaceManifests

  type File = nat

  /** What the planned path holds; anything but an ordinary directory is `Foreign`. */
  datatype Directory = Missing | Plain(files: set<File>) | Foreign

  /** A name is `None` when trimming leaves nothing or more than 200 characters. */
  datatype Release = Release(delete: bool, name: Option<Name>, protect: bool)

  datatype Request =
    | Attach(session: SessionId)
    | Detach(session: SessionId, options: Release)
    | RemoveDraft(protect: bool)
    | Cleanup(references: set<SessionId>, draft: bool, protect: bool)
    | Rename(name: Option<Name>)
    | DeleteRetained

  /** Where a running mutation stands, with the manifest it has read. */
  datatype Op =
    | Reading(request: Request)
    | Writing(request: Request, base: Manifest, next: Manifest)
    | RemovingEmpty(request: Request, base: Manifest, kept: Option<Manifest>)
    | Deleting(request: Request, base: Manifest)
    | Forgetting(request: Request, base: Manifest)

  /** Creation: the manifest is written first, and withdrawn again when the directory
      cannot be made. A binding exists once the workspace is `Open`. */
  datatype Stage = Unborn | Making | Undoing | Open | Closed

  datatype Workspace = Workspace(
    stage: Stage,
    manifest: Option<Manifest>,
    directory: Directory,
    queue: seq<Request>,
    op: Option<Op>)

  const DRAFT_NAME: Name := "未发送会话"

  // ----- What one mutation does -----

  /** `releaseDirectory`; an unacceptable name fails only when a record has to be made. */
  function ReleaseDirectory(request: Request, m: Manifest, options: Release): Option<Op> {
    var kept := Retained(options.name, m.retention);
    if options.protect then if kept.Some? then Some(Writing(request, m, kept.value)) else None
    else if options.delete then Some(Deleting(request, m))
    else Some(RemovingEmpty(request, m, kept))
  }

  /** What the mutation does next once it has read `m`; `None` when it is over. */
  function Plan(request: Request, m: Manifest): Option<Op> {
    match request
    case Attach(session) =>
      if session in m.sessions then None
      else Some(Writing(request, m, Manifest(m.sessions + {session}, None)))
    case Detach(session, options) =>
      if session !in m.sessions && m.retention.None? then None
      else if m.sessions - {session} != {} then Some(Writing(request, m, m.(sessions := m.sessions - {session})))
      else ReleaseDirectory(request, m, options)
    case RemoveDraft(protect) =>
      if m.sessions != {} || m.retention.Some? then None
      else ReleaseDirectory(request, m, Release(false, Some(DRAFT_NAME), protect))
    case Cleanup(references, draft, protect) =>
      var sessions := references + m.sessions;
      if sessions == {} && m.retention.None? && !draft then
        ReleaseDirectory(request, m, Release(false, Some(DRAFT_NAME), protect))
      else if sessions != m.sessions then
        Some(Writing(request, m, Manifest(sessions, if sessions != {} then None else m.retention)))
      else None
    case Rename(name) =>
      if m.retention.None? || m.sessions != {} || name.None? then None
      else Some(Writing(request, m, m.(retention := Some(Retention(name.value)))))
    case DeleteRetained =>
      if m.retention.None? || m.sessions != {} then None
      else Some(Deleting(request, m))
  }

  /** The next file system operation of the running mutation. */
  function Act(w: Workspace): Workspace
    requires w.op.Some?
  {
    match w.op.value
    case Reading(request) => w.(op := if w.manifest.None? then None else Plan(request, w.manifest.value))
    case Writing(_, _, next) => w.(manifest := Some(next), op := None)
    case RemovingEmpty(request, base, kept) =>
      (match w.directory
       case Missing => w.(op := Some(Forgetting(request, base)))
       case Plain(files) =>
         if files == {} then w.(directory := Missing, op := Some(Forgetting(request, base)))
         else w.(op := if kept.Some? then Some(Writing(request, base, kept.value)) else None)
       case Foreign => w.(op := None))
    case Deleting(request, base) =>
      (match w.directory
       case Missing => w.(op := Some(Forgetting(request, base)))
       case Plain(files) => if files == {} then w.(directory := Missing, op := Some(Forgetting(request, base))) else w
       case Foreign => w.(op := None))
    case Forgetting(_, _) => w.(manifest := None, op := None)
  }

  // ----- Runs -----

  datatype Event =
    | Create                    // the manifest is written, if there is none
    | MakeDirectory             // the directory is made, or creation is undone
    | MakeFails
    | UndoCreate                // the manifest is withdrawn
    | RestoreDraft              // a draft is found again after a restart
    | Submit(request: Request)
    | Start
    | Step                      // `Act`
    | Sweep(file: File)         // a recursive removal unlinks one file
    | Fail                      // an operation fails and with it the mutation
    | Crash
    | UserWrites(file: File)
    | UserDeletes(file: File)
    | UserMakesDirectory
    | UserRemovesDirectory
    | UserLinksElsewhere

  /** Only an issued binding can be attached, released or found in a session. */
  predicate NeedsBinding(request: Request) {
    request.Attach? || request.Detach? || request.RemoveDraft? || (request.Cleanup? && request.references != {})
  }

  predicate IsDraft(w: Workspace) {
    w.manifest.Some? && w.manifest.value == Manifest({}, None) && w.directory.Plain?
  }

  /** One step of the workspace; an event that is not possible leaves it as it is. */
  function Next(w: Workspace, event: Event): Workspace {
    match event
    case Create => if w.stage.Unborn? then w.(stage := Making, manifest := Some(Manifest({}, None))) else w
    case MakeDirectory =>
      if !w.stage.Making? then w
      else if w.directory.Missing? then w.(stage := Open, directory := Plain({}))
      else w.(stage := Undoing)
    case MakeFails => if w.stage.Making? then w.(stage := Undoing) else w
    case UndoCreate => if w.stage.Undoing? then w.(stage := Closed, manifest := None) else w
    case RestoreDraft => if w.stage.Closed? && IsDraft(w) then w.(stage := Open) else w
    case Submit(request) =>
      if NeedsBinding(request) && !w.stage.Open? then w else w.(queue := w.queue + [request])
    case Start =>
      if w.op.Some? || w.queue == [] then w
      else w.(queue := w.queue[1..], op := Some(Reading(w.queue[0])))
    case Step => if w.op.Some? then Act(w) else w
    case Sweep(file) =>
      if w.op.Some? && w.op.value.Deleting? && w.directory.Plain?
      then w.(directory := Plain(w.directory.files - {file})) else w
    case Fail => w.(op := None)
    case Crash => w.(queue := [], op := None, stage := if w.stage.Making? || w.stage.Undoing? then Closed else w.stage)
    case UserWrites(file) => if w.directory.Plain? then w.(directory := Plain(w.directory.files + {file})) else w
    case UserDeletes(file) => if w.directory.Plain? then w.(directory := Plain(w.directory.files - {file})) else w
    case UserMakesDirectory => if w.directory.Missing? then w.(directory := Plain({})) else w
    case UserRemovesDirectory => w.(directory := Missing)
    case UserLinksElsewhere => w.(directory := Foreign)
  }

  function Run(w: Workspace, events: seq<Event>): Workspace {
    if events == [] then w else Next(Run(w, events[..|events| - 1]), events[|events| - 1])
  }

  function Initial(directory: Directory): Workspace { Workspace(Unborn, None, directory, [], None) }

  // ----- The invariant of all runs -----

  /** The sessions a mutation gives up the directory of. */
  function Own(request: Request): set<SessionId> { if request.Detach? then {request.session} else {} }

  /** A user has asked for the files to be deleted. */
  predicate Explicit(request: Request) {
    request.DeleteRetained? || (request.Detach? && request.options.delete && !request.options.protect)
  }

  /** What a mutation may still do is bounded by the manifest it has read. */
  predicate OpValid(op: Op) {
    match op
    case Reading(_) => true
    case Writing(request, base, next) => WellFormed(next) && base.sessions - next.sessions <= Own(request)
      && (!NeedsBinding(request) ==> next.sessions <= base.sessions)
    case RemovingEmpty(request, base, kept) => base.sessions <= Own(request)
      && (kept.Some? ==> WellFormed(kept.value) && kept.value.sessions == {})
    case Deleting(request, base) => base.sessions <= Own(request) && Explicit(request)
    case Forgetting(request, base) => base.sessions <= Own(request)
  }

  /** The manifest read is the manifest stored, unless creation has withdrawn it. */
  predicate Current(w: Workspace, op: Op) {
    op.Reading? || w.manifest == Some(op.base) || (w.stage.Closed? && w.manifest.None?)
  }

  ghost predicate Inv(w: Workspace) {
    && (w.manifest.Some? ==> WellFormed(w.manifest.value))
    && (w.stage.Unborn? ==> w.manifest.None?)
    && (!w.stage.Open? ==> Unbound(w))
    && (w.op.Some? ==> OpValid(w.op.value) && Current(w, w.op.value))
  }

  /** Without a binding there are no sessions and no requests that bring any. */
  ghost predicate Unbound(w: Workspace) {
    && (w.manifest.Some? ==> w.manifest.value.sessions == {})
    && (forall request <- w.queue :: !NeedsBinding(request))
    && (w.op.Some? ==> !NeedsBinding(w.op.value.request))
    && (w.stage.Unborn? && w.op.Some? ==> w.op.value.Reading?)
    && (w.op.Some? && !w.op.value.Reading? ==> w.op.value.base.sessions == {})
  }

  lemma PlanValid(request: Request, m: Manifest)
    requires WellFormed(m)
    ensures var op := Plan(request, m);
      op.Some? ==> (OpValid(op.value) && op.value.request == request && !op.value.Reading? && op.value.base == m)
  {}

  lemma StepKeepsInv(w: Workspace, event: Event)
    requires Inv(w)
    ensures Inv(Next(w, event))
  {
    if event.Step? && w.op.Some? && w.op.value.Reading? && w.manifest.Some? {
      PlanValid(w.op.value.request, w.manifest.value);
    }
  }

  lemma {:induction false} RunKeepsInv(w: Workspace, events: seq<Event>)
    requires Inv(w)
    ensures Inv(Run(w, events))
  {
    if events != [] {
      RunKeepsInv(w, events[..|events| - 1]);
      StepKeepsInv(Run(w, events[..|events| - 1]), events[|events| - 1]);
    }
  }

  /** In no run does a retained workspace have a session. */
  lemma RetentionMeansNoSessions(directory: Directory, events: seq<Event>)
    ensures var w := Run(Initial(directory), events);
      w.manifest.Some? && w.manifest.value.retention.Some? ==> w.manifest.value.sessions == {}
  {
    RunKeepsInv(Initial(directory), events);
  }

  /** Every write and removal of the manifest works on the manifest it replaces: no update is
      lost, and the only thing that can be revived is a creation just withdrawn. */
  lemma MutationsAreSerial(directory: Directory, events: seq<Event>)
    ensures var w := Run(Initial(directory), events);
      w.op.Some? && !w.op.value.Reading? ==>
        w.manifest == Some(w.op.value.base) || (w.stage.Closed? && w.manifest.None? && w.op.value.base.sessions == {})
  {
    RunKeepsInv(Initial(directory), events);
  }

  // ----- No lost files -----

  predicate UserEvent(event: Event) {
    event.UserWrites? || event.UserDeletes? || event.UserMakesDirectory? || event.UserRemovesDirectory? || event.UserLinksElsewhere?
  }

  /** The user leaves `file` alone. */
  predicate Spares(event: Event, file: File) {
    event != UserDeletes(file) && !event.UserRemovesDirectory? && !event.UserLinksElsewhere?
  }

  predicate Holds(w: Workspace, file: File) { w.directory.Plain? && file in w.directory.files }

  predicate HasSession(w: Workspace, session: SessionId) { w.manifest.Some? && session in w.manifest.value.sessions }

  /** A file the user leaves alone goes only through a deletion that was asked for, and then
      no session but the one being detached refers to the workspace. */
  lemma FilesGoOnlyByExplicitDelete(w: Workspace, event: Event, file: File)
    requires Inv(w) && Holds(w, file) && Spares(event, file) && !Holds(Next(w, event), file)
    ensures event == Sweep(file) && w.op.Some? && w.op.value.Deleting? && Explicit(w.op.value.request)
    ensures w.manifest.Some? ==> w.manifest.value.sessions <= Own(w.op.value.request)
  {}

  /** The manager takes away a directory, even an empty one, only when no session but the one
      being detached refers to it. */
  lemma DirectoryGoesOnlyUnreferenced(w: Workspace, event: Event)
    requires Inv(w) && !w.directory.Missing? && Next(w, event).directory.Missing? && !UserEvent(event)
    ensures event == Step && w.op.Some? && w.directory == Plain({})
    ensures w.manifest.Some? ==> w.manifest.value.sessions <= Own(w.op.value.request)
  {}

  /** Neither cleanup nor any other session's mutation takes a session's reference away. */
  lemma SessionsLeaveOnlyByDetach(w: Workspace, event: Event, session: SessionId)
    requires Inv(w) && HasSession(w, session) && !HasSession(Next(w, event), session)
    ensures event == Step && w.op.Some? && w.op.value.request.Detach? && w.op.value.request.session == session
  {
    if event.Step? && w.op.Some? && !w.op.value.Reading? {
      assert w.manifest == Some(w.op.value.base);
    }
  }

  predicate Detaches(request: Request, session: SessionId) { request.Detach? && request.session == session }

  predicate NoneDetaches(w: Workspace, session: SessionId) {
    (forall request <- w.queue :: !Detaches(request, session)) && (w.op.Some? ==> !Detaches(w.op.value.request, session))
  }

  /** Whatever other sessions, cleanups, failures and crashes do: while a session has not asked
      to be detached it keeps its reference, its directory and every file the user spares. */
  lemma {:induction false} AttachedIsSafe(w: Workspace, events: seq<Event>, session: SessionId, file: File)
    requires Inv(w) && HasSession(w, session) && NoneDetaches(w, session)
    requires forall e <- events :: Spares(e, file) && !(e.Submit? && Detaches(e.request, session))
    ensures var after := Run(w, events);
      && HasSession(after, session) && NoneDetaches(after, session)
      && (w.directory.Plain? ==> after.directory.Plain?) && (Holds(w, file) ==> Holds(after, file))
  {
    if events != [] {
      var init, last := events[..|events| - 1], events[|events| - 1];
      AttachedIsSafe(w, init, session, file);
      RunKeepsInv(w, init);
      AttachedStep(Run(w, init), last, session, file);
    }
  }

  lemma AttachedStep(w: Workspace, event: Event, session: SessionId, file: File)
    requires Inv(w) && HasSession(w, session) && NoneDetaches(w, session)
    requires Spares(event, file) && !(event.Submit? && Detaches(event.request, session))
    ensures var after := Next(w, event);
      && HasSession(after, session) && NoneDetaches(after, session)
      && (w.directory.Plain? ==> after.directory.Plain?) && (Holds(w, file) ==> Holds(after, file))
  {
    if event.Step? && w.op.Some? && w.op.value.Reading? {
      PlanValid(w.op.value.request, w.manifest.value);
    }
    if !HasSession(Next(w, event), session) {
      SessionsLeaveOnlyByDetach(w, event, session);
    }
    if w.directory.Plain? && Next(w, event).directory.Missing? {
      DirectoryGoesOnlyUnreferenced(w, event);
    }
    if Holds(w, file) && !Holds(Next(w, event), file) {
      FilesGoOnlyByExplicitDelete(w, event, file);
    }
  }

  predicate NoneExplicit(w: Workspace) {
    (forall request <- w.queue :: !Explicit(request)) && (w.op.Some? ==> !Explicit(w.op.value.request))
  }

  /** Where nobody asks for deletion no file is ever lost. */
  lemma {:induction false} NothingLostUnasked(w: Workspace, events: seq<Event>, file: File)
    requires Inv(w) && NoneExplicit(w) && Holds(w, file)
    requires forall e <- events :: Spares(e, file) && !(e.Submit? && Explicit(e.request))
    ensures var after := Run(w, events); NoneExplicit(after) && Holds(after, file)
  {
    if events != [] {
      var init, last := events[..|events| - 1], events[|events| - 1];
      NothingLostUnasked(w, init, file);
      RunKeepsInv(w, init);
      UnaskedStep(Run(w, init), last, file);
    }
  }

  lemma UnaskedStep(w: Workspace, event: Event, file: File)
    requires Inv(w) && NoneExplicit(w) && Holds(w, file)
    requires Spares(event, file) && !(event.Submit? && Explicit(event.request))
    ensures var after := Next(w, event); NoneExplicit(after) && Holds(after, file)
  {
    if event.Step? && w.op.Some? && w.op.value.Reading? && w.manifest.Some? {
      PlanValid(w.op.value.request, w.manifest.value);
    }
    if !Holds(Next(w, event), file) {
      FilesGoOnlyByExplicitDelete(w, event, file);
    }
  }

  // ----- What an undisturbed mutation leaves behind -----

  function Steps(w: Workspace, n: nat): Workspace { if n == 0 then w else Next(Steps(w, n - 1), Step) }

  /** The run in which a queued mutation starts and takes its next `n` steps. */
  function Undisturbed(n: nat): seq<Event> { [Start] + seq(n, _ => Step) }

  lemma {:induction false} RunSteps(w: Workspace, n: nat)
    ensures Run(w, Undisturbed(n)) == Steps(Next(w, Start), n)
  {
    if n == 0 {
      assert Undisturbed(0) == [Start] && [Start][..0] == [];
    } else {
      RunSteps(w, n - 1);
      assert Undisturbed(n)[..n] == Undisturbed(n - 1);
    }
  }

  /** The mutation is next in the queue, and nothing runs. */
  predicate Waiting(w: Workspace, request: Request) {
    w.op.None? && w.queue != [] && w.queue[0] == request && w.manifest.Some?
  }

  /** A mutation that fails leaves manifest and directory as they are, and the next one is free to start. */
  lemma FailureLetsNextStart(w: Workspace)
    requires w.queue != [] && w.manifest.Some?
    ensures Waiting(Next(w, Fail), w.queue[0])
    ensures Next(w, Fail).manifest == w.manifest && Next(w, Fail).directory == w.directory && Next(w, Fail).queue == w.queue
  {}

  /** The workspace once the first mutation in the queue is out of the way. */
  function Rest(w: Workspace): Workspace
    requires w.queue != []
  {
    w.(queue := w.queue[1..])
  }

  /** The step that reads the manifest, and one that acts on it. */
  lemma ReadAndWrite(w: Workspace, request: Request)
    requires Waiting(w, request)
    ensures var plan := Plan(request, w.manifest.value);
      Run(w, Undisturbed(2)) == if plan.Some? then Act(Rest(w).(op := plan)) else Rest(w)
  {
    RunSteps(w, 2);
    hide Run, Plan;
    assert Steps(Next(w, Start), 1) == Next(Next(w, Start), Step);
  }

  /** Attaching adds the reference and ends a retention; a second time it changes nothing. */
  lemma AttachOutcome(w: Workspace, session: SessionId)
    requires Inv(w) && Waiting(w, Attach(session))
    ensures var m := w.manifest.value;
      Run(w, Undisturbed(2)) == Rest(w).(manifest :=
        if session in m.sessions then w.manifest else Some(Manifest(m.sessions + {session}, None)))
  {
    ReadAndWrite(w, Attach(session));
    hide Run;
  }

  /** The workspace kept without sessions, under its old name or a new one; without either it is
      left as it is. */
  function KeptAs(w: Workspace, name: Option<Name>): Workspace
    requires w.manifest.Some?
  {
    if w.manifest.value.retention.Some? then w.(manifest := Some(Manifest({}, w.manifest.value.retention)))
    else if name.Some? then w.(manifest := Some(Manifest({}, Some(Retention(name.value)))))
    else w
  }

  /** What becomes of a workspace that nobody refers to any more and nobody wants deleted: an
      unprotected directory goes if it is empty, and something else in its place is left alone. */
  function LetGo(w: Workspace, name: Option<Name>, protect: bool): Workspace
    requires w.manifest.Some?
  {
    if protect then KeptAs(w, name)
    else match w.directory
      case Missing => w.(manifest := None)
      case Plain(files) => if files == {} then w.(manifest := None, directory := Missing) else KeptAs(w, name)
      case Foreign => w
  }

  lemma ReleaseOutcome(w: Workspace, request: Request, m: Manifest, options: Release)
    requires w.manifest == Some(m) && WellFormed(m)
    requires options.delete ==> options.protect
    requires w.op == ReleaseDirectory(request, m, options)
    ensures Steps(w, 2) == LetGo(w.(op := None), options.name, options.protect)
  {
    assert Steps(w, 1) == Next(w, Step);
  }

  /** The step that reads the manifest, and two more. */
  lemma ReadThenTwo(w: Workspace, request: Request)
    requires Waiting(w, request)
    ensures var read := Rest(w).(op := Plan(request, w.manifest.value));
      && Run(w, Undisturbed(3)) == Steps(read, 2)
      && (read.op.None? ==> Steps(read, 2) == read)
      && (read.op.Some? && read.op.value.Writing? ==> Steps(read, 2) == read.(op := None, manifest := Some(read.op.value.next)))
  {
    RunSteps(w, 3);
    hide Run, Plan;
    var read := Rest(w).(op := Plan(request, w.manifest.value));
    assert Steps(Next(w, Start), 1) == Next(Next(w, Start), Step) == read;
    assert Steps(Next(w, Start), 2) == Next(read, Step) == Steps(read, 1);
  }

  /** A detachment that does not delete: one that is not attached changes nothing of a workspace in
      use or of a draft; shared workspaces only lose the reference; the last one leaves nothing of
      an unprotected empty directory, and otherwise a retention record with all the files. */
  lemma DetachOutcome(w: Workspace, session: SessionId, options: Release)
    requires Inv(w) && Waiting(w, Detach(session, options)) && (options.delete ==> options.protect)
    ensures var m := w.manifest.value;
      Run(w, Undisturbed(3)) ==
        if session !in m.sessions && m.retention.None? then Rest(w)
        else if m.sessions - {session} != {} then Rest(w).(manifest := Some(Manifest(m.sessions - {session}, None)))
        else LetGo(Rest(w), options.name, options.protect)
  {
    var request, m := Detach(session, options), w.manifest.value;
    ReadThenTwo(w, request);
    hide Run, Steps;
    if !(session !in m.sessions && m.retention.None?) && m.sessions - {session} == {} {
      ReleaseOutcome(Rest(w).(op := Plan(request, m)), request, m, options);
    }
  }

  /** To shared workspaces and without being attached a wish to delete makes no difference. */
  lemma SharedDetachOutcome(w: Workspace, session: SessionId, options: Release)
    requires Inv(w) && Waiting(w, Detach(session, options))
    requires var m := w.manifest.value; m.sessions - {session} != {} || (session !in m.sessions && m.retention.None?)
    ensures var m := w.manifest.value;
      Run(w, Undisturbed(3)) ==
        if session in m.sessions then Rest(w).(manifest := Some(Manifest(m.sessions - {session}, None))) else Rest(w).(manifest := Some(m))
  {
    ReadThenTwo(w, Detach(session, options));
    hide Run, Steps;
    assert session !in w.manifest.value.sessions ==> w.manifest.value.sessions - {session} == w.manifest.value.sessions;
  }

  /** A draft goes the same way, and nothing but a draft does. */
  lemma RemoveDraftOutcome(w: Workspace, protect: bool)
    requires Inv(w) && Waiting(w, RemoveDraft(protect))
    ensures Run(w, Undisturbed(3)) ==
      if w.manifest.value == Manifest({}, None) then LetGo(Rest(w), Some(DRAFT_NAME), protect) else Rest(w)
  {
    ReadThenTwo(w, RemoveDraft(protect));
    hide Run, Steps;
    if w.manifest.value == Manifest({}, None) {
      ReleaseOutcome(Rest(w).(op := Plan(RemoveDraft(protect), w.manifest.value)), RemoveDraft(protect), w.manifest.value,
                     Release(false, Some(DRAFT_NAME), protect));
    }
  }

  /** Cleanup adds the references it was told of, lets go of what nobody refers to, retains or
      drafts, and leaves everything else alone. */
  lemma CleanupOutcome(w: Workspace, references: set<SessionId>, draft: bool, protect: bool)
    requires Inv(w) && Waiting(w, Cleanup(references, draft, protect))
    ensures var m := w.manifest.value;
      Run(w, Undisturbed(3)) ==
        if references + m.sessions != {} then Rest(w).(manifest := Some(Manifest(references + m.sessions, None)))
        else if m.retention.Some? || draft then Rest(w)
        else LetGo(Rest(w), Some(DRAFT_NAME), protect)
  {
    var request, m := Cleanup(references, draft, protect), w.manifest.value;
    ReadThenTwo(w, request);
    hide Run, Steps;
    if references + m.sessions == {} && m.retention.None? && !draft {
      ReleaseOutcome(Rest(w).(op := Plan(request, m)), request, m, Release(false, Some(DRAFT_NAME), protect));
    }
  }

  /** Renaming changes the name of a retained workspace, and nothing else. */
  lemma RenameOutcome(w: Workspace, name: Option<Name>)
    requires Inv(w) && Waiting(w, Rename(name))
    ensures Run(w, Undisturbed(2)) ==
      if name.Some? && w.manifest.value.retention.Some?
      then Rest(w).(manifest := Some(Manifest({}, Some(Retention(name.value))))) else Rest(w)
  {
    ReadAndWrite(w, Rename(name));
    hide Run;
  }

  // ----- Creation and restart -----

  lemma RunTwo(w: Workspace, a: Event, b: Event)
    ensures Run(w, [a, b]) == Next(Next(w, a), b)
  {
    assert [a, b][..1] == [a];
    assert Run(w, [a]) == Next(w, a);
  }

  /** A creation makes an empty directory with a manifest that nobody refers to; where something is
      already, and where the directory cannot be made, it leaves everything as it was. */
  lemma CreateOutcome(w: Workspace)
    requires Inv(w) && w.stage.Unborn?
    ensures w.directory.Missing? ==>
      Run(w, [Create, MakeDirectory]) == w.(stage := Open, manifest := Some(Manifest({}, None)), directory := Plain({}))
    ensures !w.directory.Missing? ==> Run(w, [Create, MakeDirectory, UndoCreate]) == w.(stage := Closed)
    ensures Run(w, [Create, MakeFails, UndoCreate]) == w.(stage := Closed)
  {
    RunTwo(w, Create, MakeDirectory);
    RunTwo(w, Create, MakeFails);
    hide Run;
    RunSnoc(w, [Create, MakeDirectory], UndoCreate);
    RunSnoc(w, [Create, MakeFails], UndoCreate);
    assert [Create, MakeDirectory] + [UndoCreate] == [Create, MakeDirectory, UndoCreate];
    assert [Create, MakeFails] + [UndoCreate] == [Create, MakeFails, UndoCreate];
  }

  /** A creation that a crash cuts short leaves its manifest behind, and with a directory beside it that
      is a draft again after the restart. */
  lemma RestoreOutcome(w: Workspace)
    requires Inv(w) && w.stage.Unborn?
    ensures Run(w, [Create, Crash, RestoreDraft]) ==
      Workspace(if w.directory.Plain? then Open else Closed, Some(Manifest({}, None)), w.directory, [], None)
  {
    RunTwo(w, Create, Crash);
    hide Run;
    RunSnoc(w, [Create, Crash], RestoreDraft);
    assert [Create, Crash] + [RestoreDraft] == [Create, Crash, RestoreDraft];
  }

  /** After a crash only what is on disk counts: whatever was queued or running, the cleanup at the
      next start finds the manifest as it is and lets go of what nobody refers to or retains. */
  lemma CrashOutcome(w: Workspace, protect: bool)
    requires Inv(w) && w.manifest.Some?
    ensures var m, started := w.manifest.value, Run(w, [Crash, Submit(Cleanup({}, false, protect))] + Undisturbed(3));
      && started.queue == [] && started.op.None?
      && if m.sessions != {} || m.retention.Some? then started.manifest == w.manifest && started.directory == w.directory
         else
           var gone := LetGo(w, Some(DRAFT_NAME), protect);
           started.manifest == gone.manifest && started.directory == gone.directory
  {
    var request := Cleanup({}, false, protect);
    RunTwo(w, Crash, Submit(request));
    var crashed := Run(w, [Crash, Submit(request)]);
    StepKeepsInv(w, Crash);
    StepKeepsInv(Next(w, Crash), Submit(request));
    assert crashed.queue == [] + [request];
    CleanupOutcome(crashed, {}, false, protect);
    assert {} + w.manifest.value.sessions == w.manifest.value.sessions;
    hide Run, Undisturbed;
    RunConcat(w, [Crash, Submit(request)], Undisturbed(3));
  }

  lemma {:induction false} RunConcat(w: Workspace, events: seq<Event>, more: seq<Event>)
    ensures Run(w, events + more) == Run(Run(w, events), more)
  {
    if more == [] {
      assert events + more == events;
    } else {
      var init := more[..|more| - 1];
      RunConcat(w, events, init);
      assert (events + more)[..|events + more| - 1] == events + init;
    }
  }

  /** A deletion that was asked for can be carried through: of a retained workspace, or by the
      last session, unprotected. Directory and manifest are gone then. */
  lemma DeleteOutcome(w: Workspace, request: Request) returns (events: seq<Event>)
    requires Inv(w) && Waiting(w, request) && Explicit(request) && !w.directory.Foreign?
    requires if request.DeleteRetained? then w.manifest.value.retention.Some? else w.manifest.value.sessions == {request.session}
    ensures forall e <- events :: e.Start? || e.Step? || e.Sweep?
    ensures Run(w, events) == Rest(w).(manifest := None, directory := Missing)
  {
    RunSteps(w, 1);
    var deleting := Run(w, Undisturbed(1));
    assert deleting == Rest(w).(op := Some(Deleting(request, w.manifest.value)));
    var files := if w.directory.Plain? then w.directory.files else {};
    events := SweepAll(w, Undisturbed(1), files);
    var swept := Run(w, events);
    RunSnoc(w, events, Step);
    RunSnoc(w, events + [Step], Step);
    events := events + [Step] + [Step];
  }

  /** A workspace that is not retained is not deleted as such. */
  lemma DeleteRefused(w: Workspace)
    requires Inv(w) && Waiting(w, DeleteRetained) && w.manifest.value.retention.None?
    ensures Run(w, Undisturbed(1)) == Rest(w)
  {
    RunSteps(w, 1);
  }

  lemma RunSnoc(w: Workspace, events: seq<Event>, event: Event)
    ensures Run(w, events + [event]) == Next(Run(w, events), event)
  {
    assert (events + [event])[..|events|] == events;
  }

  lemma {:induction false} SweepAll(w: Workspace, before: seq<Event>, files: set<File>) returns (events: seq<Event>)
    requires var d := Run(w, before);
      d.op.Some? && d.op.value.Deleting? && ((d.directory.Missing? && files == {}) || d.directory == Plain(files))
    requires forall e <- before :: e.Start? || e.Step? || e.Sweep?
    ensures forall e <- events :: e.Start? || e.Step? || e.Sweep?
    ensures var d := Run(w, before);
      Run(w, events) == if d.directory.Missing? then d else d.(directory := Plain({}))
    decreases files
  {
    hide Run;
    if files == {} {
      events := before;
    } else {
      var file :| file in files;
      RunSnoc(w, before, Sweep(file));
      events := SweepAll(w, before + [Sweep(file)], files - {file});
    }
  }
}
