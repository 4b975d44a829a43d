/** One managed Git worktree: its manifest, its directory, the runtimes that lease it, and
    the mutations queued for it. Restored drafts and new worktrees take their lease outside
    the queue, so that may happen between any two steps of a mutation. */
module Worktrees {
  import opened Options
  import opened WorkspaceManifests

  type Owner = nat
  type Commit = nat

  /** What the worktree path holds. */
  datatype Directory = Missing | Empty | Checkout(dirty: bool, onBranch: bool, head: Commit)

  datatype Request =
    | Attach(session: SessionId)
    | Claim(session: SessionId, owner: Owner)
    | Detach(session: SessionId, delete: bool, protect: bool, name: Option<Name>)
    | Rename(name: Option<Name>)
    | DeleteRetained
    | RetainDraft
    | Remove(discard: bool)

  datatype Op =
    | Reading(request: Request)
    | Writing(request: Request, base: Manifest, next: Manifest)
    | Acquiring(request: Request)
    | Releasing(request: Request)                     // detached; may the directory go too?
    | RemovingEmpty(request: Request)
    | CheckingSessions(request: Request)              // removeOwned begins
    | CheckingLeases(request: Request, base: Manifest)
    | CheckingStatus(request: Request, base: Manifest)
    | Removing(request: Request, base: Manifest)
    | Forgetting(request: Request, base: Manifest)

  /** `late` holds the owners that came from outside the queue since the running mutation
      looked at the leases, `touched` tells whether the user changed the worktree since it
      looked at the status. */
  datatype Worktree = Worktree(
    created: bool,
    manifest: Option<Manifest>,
    directory: Directory,
    leases: set<Owner>,
    arriving: set<Owner>,
    queue: seq<Request>,
    op: Option<Op>,
    late: set<Owner>,
    touched: bool)

  const DRAFT_NAME: Name := "未发送会话"

  // ----- What one mutation does -----

  /** Removal asked for by the user drops changes; cleanups and drafts do not. */
  predicate Discards(request: Request) {
    request.DeleteRetained? || (request.Remove? && request.discard) || request.Detach?
  }

  function Write(request: Request, m: Manifest, next: Option<Manifest>): Option<Op> {
    match next
    case Some(written) => Some(Writing(request, m, written))
    case None => None
  }

  function Plan(request: Request, m: Manifest): Option<Op> {
    match request
    case Attach(session) =>
      if session in m.sessions then None
      else Some(Writing(request, m, Manifest(m.sessions + {session}, None)))
    case Claim(session, _) =>
      if session in m.sessions then Some(Acquiring(request))
      else if m.sessions != {} then None
      else Some(Writing(request, m, Manifest({session}, None)))
    case Detach(session, _, _, name) =>
      var remaining := m.sessions - {session};
      if remaining == m.sessions && m.retention.None? then Some(Releasing(request))
      else if remaining != {} then Some(Writing(request, m, Manifest(remaining, None)))
      else Write(request, m, Retained(name, m.retention))
    case Rename(name) =>
      if m.retention.None? || m.sessions != {} || name.None? then None
      else Some(Writing(request, m, m.(retention := Some(Retention(name.value)))))
    case DeleteRetained =>
      if m.retention.None? || m.sessions != {} then None else Some(CheckingSessions(request))
    case RetainDraft =>
      if m.sessions != {} then None else Write(request, m, Retained(Some(DRAFT_NAME), m.retention))
    case Remove(_) => Some(CheckingSessions(request))
  }

  /** After a detachment or a claim has been written there is more to do. */
  function AfterWrite(request: Request): Option<Op> {
    if request.Claim? then Some(Acquiring(request)) else if request.Detach? then Some(Releasing(request)) else None
  }

  predicate AwayFromBase(directory: Directory, baseCommit: Commit) {
    directory.Checkout? && !directory.onBranch && directory.head != baseCommit
  }

  /** The next operation of the running mutation. Without `--force` Git itself refuses to
      remove a dirty worktree. */
  function Act(w: Worktree, baseCommit: Commit): Worktree
    requires w.op.Some?
  {
    match w.op.value
    case Reading(request) =>
      w.(op := if w.manifest.Some? then Plan(request, w.manifest.value)
               else if request.Detach? && w.directory.Missing? then Some(Releasing(request)) else None)
    case Writing(request, _, next) => w.(manifest := Some(next), op := AfterWrite(request))
    case Acquiring(request) =>
      if request.Claim? then w.(leases := w.leases + {request.owner}, op := None) else w.(op := None)
    case Releasing(request) =>
      if !request.Detach? || request.protect || w.leases != {}
         || (w.manifest.Some? && w.manifest.value.sessions != {}) then w.(op := None)
      else w.(op := Some(if request.delete then CheckingSessions(request) else RemovingEmpty(request)))
    case RemovingEmpty(request) =>
      if w.directory.Checkout? then w.(op := None)
      else w.(directory := Missing, op := Some(CheckingSessions(request)))
    case CheckingSessions(request) =>
      w.(op := if w.manifest.Some? && w.manifest.value.sessions == {}
               then Some(CheckingLeases(request, w.manifest.value)) else None)
    case CheckingLeases(request, base) =>
      if w.leases != {} then w.(op := None)
      else w.(late := {}, op := Some(if Discards(request) || w.directory.Missing? then Removing(request, base)
                                     else CheckingStatus(request, base)))
    case CheckingStatus(request, base) =>
      if !w.directory.Checkout? || w.directory.dirty || AwayFromBase(w.directory, baseCommit) then w.(op := None)
      else w.(touched := false, op := Some(Removing(request, base)))
    case Removing(request, base) =>
      if w.directory.Missing? then w.(op := Some(Forgetting(request, base)))
      else if Discards(request) || (w.directory.Checkout? && !w.directory.dirty)
      then w.(directory := Missing, op := Some(Forgetting(request, base)))
      else w.(op := None)
    case Forgetting(_, _) => w.(manifest := None, op := None)
  }

  // ----- Runs -----

  datatype Event =
    | Create(owner: Owner)       // the checkout and its manifest are there, the lease not yet
    | Restore(owner: Owner)      // a restored draft has found its unclaimed manifest
    | Arrive(owner: Owner)       // either of them takes its lease
    | Release(owner: Owner)
    | Submit(request: Request)
    | Start
    | Step
    | Fail
    | Crash
    | UserChanges(directory: Directory)

  function Next(w: Worktree, event: Event, baseCommit: Commit): Worktree {
    match event
    case Create(owner) =>
      if w.created then w
      else w.(created := true, manifest := Some(Manifest({}, None)), directory := Checkout(false, false, baseCommit),
              arriving := w.arriving + {owner})
    case Restore(owner) =>
      if w.manifest == Some(Manifest({}, None)) then w.(arriving := w.arriving + {owner}) else w
    case Arrive(owner) =>
      if owner in w.arriving
      then w.(leases := w.leases + {owner}, arriving := w.arriving - {owner},
              late := if owner in w.leases then w.late else w.late + {owner})
      else w
    case Release(owner) => w.(leases := w.leases - {owner}, late := w.late - {owner})
    case Submit(request) => if w.created then w.(queue := w.queue + [request]) else w
    case Start =>
      if w.op.Some? || w.queue == [] then w
      else w.(queue := w.queue[1..],
              op := Some(if w.queue[0].Remove? then CheckingSessions(w.queue[0]) else Reading(w.queue[0])))
    case Step => if w.op.Some? then Act(w, baseCommit) else w
    case Fail => w.(op := None)
    case Crash => w.(queue := [], op := None, leases := {}, arriving := {})
    case UserChanges(directory) => w.(directory := directory, touched := true)
  }

  function Run(w: Worktree, events: seq<Event>, baseCommit: Commit): Worktree {
    if events == [] then w
    else Next(Run(w, events[..|events| - 1], baseCommit), events[|events| - 1], baseCommit)
  }

  function Initial(): Worktree { Worktree(false, None, Missing, {}, {}, [], None, {}, false) }

  // ----- The invariant of all runs -----

  /** The mutation has found no lease and acts on that. */
  predicate PastLeases(op: Op) { op.CheckingStatus? || op.Removing? || op.Forgetting? }

  predicate HasBase(op: Op) { op.Writing? || op.CheckingLeases? || PastLeases(op) }

  predicate OpValid(w: Worktree, op: Op, baseCommit: Commit) {
    && (op.Writing? ==> WellFormed(op.next))
    && (op.Writing? ==> op.base.sessions - op.next.sessions <= if op.request.Detach? then {op.request.session} else {})
    && (HasBase(op) ==> w.manifest == Some(op.base))
    && (HasBase(op) && !op.Writing? ==> op.base.sessions == {})
    && (op.RemovingEmpty? || op.CheckingSessions? ==> op.request.Detach? ==> Unreferenced(w))
    && (op.RemovingEmpty? ==> op.request.Detach?)
    && (PastLeases(op) ==> w.leases <= w.late)
    && (op.Removing? && !Discards(op.request) && !w.touched ==> !AwayFromBase(w.directory, baseCommit))
  }

  predicate Unreferenced(w: Worktree) { w.manifest.Some? ==> w.manifest.value.sessions == {} }

  ghost predicate Inv(w: Worktree, baseCommit: Commit) {
    && (w.manifest.Some? ==> w.created && WellFormed(w.manifest.value))
    && (!w.created ==> w.op.None? && w.queue == [] && w.arriving == {} && w.leases == {})
    && (w.op.Some? ==> OpValid(w, w.op.value, baseCommit))
  }

  lemma StepKeepsInv(w: Worktree, event: Event, baseCommit: Commit)
    requires Inv(w, baseCommit)
    ensures Inv(Next(w, event, baseCommit), baseCommit)
  {
    if event.Step? && w.op.Some? {
      ActKeepsInv(w, baseCommit);
    }
    hide Act;
  }

  lemma ActKeepsInv(w: Worktree, baseCommit: Commit)
    requires Inv(w, baseCommit) && w.op.Some?
    ensures Inv(Act(w, baseCommit), baseCommit)
  {}

  lemma {:induction false} RunKeepsInv(w: Worktree, events: seq<Event>, baseCommit: Commit)
    requires Inv(w, baseCommit)
    ensures Inv(Run(w, events, baseCommit), baseCommit)
  {
    if events != [] {
      RunKeepsInv(w, events[..|events| - 1], baseCommit);
      StepKeepsInv(Run(w, events[..|events| - 1], baseCommit), events[|events| - 1], baseCommit);
    }
  }

  // ----- Sessions -----

  predicate HasSession(w: Worktree, session: SessionId) { w.manifest.Some? && session in w.manifest.value.sessions }

  predicate Detaches(request: Request, session: SessionId) { request.Detach? && request.session == session }

  predicate NoneDetaches(w: Worktree, session: SessionId) {
    (forall request <- w.queue :: !Detaches(request, session)) && (w.op.Some? ==> !Detaches(w.op.value.request, session))
  }

  predicate UserSpares(event: Event) { event.UserChanges? ==> !event.directory.Missing? }

  /** While a session has not asked to be detached, no mutation takes its reference or the
      worktree away, however failures and crashes fall. */
  lemma {:induction false} AttachedIsSafe(w: Worktree, events: seq<Event>, session: SessionId, baseCommit: Commit)
    requires Inv(w, baseCommit) && HasSession(w, session) && NoneDetaches(w, session) && !w.directory.Missing?
    requires forall e <- events :: UserSpares(e) && !(e.Submit? && Detaches(e.request, session))
    ensures var after := Run(w, events, baseCommit);
      HasSession(after, session) && NoneDetaches(after, session) && !after.directory.Missing?
  {
    if events != [] {
      var init, last := events[..|events| - 1], events[|events| - 1];
      AttachedIsSafe(w, init, session, baseCommit);
      RunKeepsInv(w, init, baseCommit);
      AttachedStep(Run(w, init, baseCommit), last, session, baseCommit);
    }
  }

  lemma PlanKeepsRequest(request: Request, m: Manifest)
    ensures var op := Plan(request, m); op.Some? ==> op.value.request == request
  {}

  lemma AttachedStep(w: Worktree, event: Event, session: SessionId, baseCommit: Commit)
    requires Inv(w, baseCommit) && HasSession(w, session) && NoneDetaches(w, session) && !w.directory.Missing?
    requires UserSpares(event) && !(event.Submit? && Detaches(event.request, session))
    ensures var after := Next(w, event, baseCommit);
      HasSession(after, session) && NoneDetaches(after, session) && !after.directory.Missing?
  {
    if event.Step? && w.op.Some? && w.op.value.Reading? {
      PlanKeepsRequest(w.op.value.request, w.manifest.value);
    }
  }

  // ----- Leases -----

  predicate HoldsLease(w: Worktree, owner: Owner) {
    owner in w.leases && (w.op.Some? && PastLeases(w.op.value) ==> owner !in w.late)
  }

  predicate LeavesLease(event: Event, owner: Owner) {
    event != Release(owner) && !event.Crash? && (event.UserChanges? ==> event.directory.Checkout?)
  }

  /** A lease that was there when a mutation looked keeps the checkout: until the owner
      releases it no mutation removes the directory. */
  lemma {:induction false} LeasedIsSafe(w: Worktree, events: seq<Event>, owner: Owner, baseCommit: Commit)
    requires Inv(w, baseCommit) && HoldsLease(w, owner) && w.directory.Checkout?
    requires forall e <- events :: LeavesLease(e, owner)
    ensures var after := Run(w, events, baseCommit); HoldsLease(after, owner) && after.directory.Checkout?
  {
    if events != [] {
      var init, last := events[..|events| - 1], events[|events| - 1];
      LeasedIsSafe(w, init, owner, baseCommit);
      RunKeepsInv(w, init, baseCommit);
      LeasedStep(Run(w, init, baseCommit), last, owner, baseCommit);
    }
  }

  lemma LeasedStep(w: Worktree, event: Event, owner: Owner, baseCommit: Commit)
    requires Inv(w, baseCommit) && HoldsLease(w, owner) && w.directory.Checkout?
    requires LeavesLease(event, owner)
    ensures var after := Next(w, event, baseCommit); HoldsLease(after, owner) && after.directory.Checkout?
  {}

  /** Where a mutation takes a checkout away, every lease has come from outside the queue after
      the mutation had looked, and no session refers to the worktree. */
  lemma RemovalUnderLease(w: Worktree, event: Event, baseCommit: Commit)
    requires Inv(w, baseCommit) && w.directory.Checkout? && !event.UserChanges?
    requires Next(w, event, baseCommit).directory.Missing?
    ensures w.leases <= w.late && Unreferenced(w)
  {}

  /** The running mutation has looked at the leases and will find nothing else to refuse. */
  predicate Doomed(w: Worktree, baseCommit: Commit) {
    w.op.Some? &&
    match w.op.value
    case CheckingStatus(_, _) => !w.directory.Checkout? || !(w.directory.dirty || AwayFromBase(w.directory, baseCommit))
    case Removing(request, _) => Discards(request) || !w.directory.Checkout? || !w.directory.dirty
    case _ => false
  }

  /** The owner keeps its lease, and neither a crash nor the user interferes. */
  predicate Undisturbing(events: seq<Event>, owner: Owner) {
    forall e <- events :: e != Release(owner) && !e.Crash? && !e.UserChanges?
  }

  /** The checkout goes from under the owner in some continuation, whatever else may happen in it. */
  ghost predicate LosesCheckout(w: Worktree, owner: Owner, baseCommit: Commit) {
    exists events :: Undisturbing(events, owner) && Run(w, events, baseCommit).directory.Missing?
  }

  /** The exact condition of the race: a lease that arrives from outside the queue can lose its
      checkout if and only if it arrives while the running mutation is past its look at the
      leases with nothing left to refuse. */
  lemma LeaseLostIff(w: Worktree, owner: Owner, baseCommit: Commit)
    requires Inv(w, baseCommit) && w.directory.Checkout? && owner in w.arriving
    ensures LosesCheckout(Next(w, Arrive(owner), baseCommit), owner, baseCommit) <==> Doomed(w, baseCommit)
  {
    var arrived := Next(w, Arrive(owner), baseCommit);
    StepKeepsInv(w, Arrive(owner), baseCommit);
    if Doomed(w, baseCommit) {
      var n := ArrivalDuringRemoval(w, owner, baseCommit);
      assert Undisturbing(n, owner);
    } else {
      forall events | Undisturbing(events, owner) ensures !Run(arrived, events, baseCommit).directory.Missing? {
        NotDoomedIsSafe(arrived, events, owner, baseCommit);
      }
    }
  }

  /** And a lease that arrives when the directory is gone already leases nothing, now and for as long
      as the user does not put anything there; the manifest goes from under it too. */
  lemma LeaseOfNothing(w: Worktree, events: seq<Event>, owner: Owner, baseCommit: Commit)
    requires Inv(w, baseCommit) && w.directory.Missing? && owner in w.arriving && Undisturbing(events, owner)
    ensures var after := Run(Next(w, Arrive(owner), baseCommit), events, baseCommit);
      && owner in after.leases && after.directory.Missing?
      && (w.op.Some? && w.op.value.Forgetting? && Step in events && Fail !in events ==> after.manifest.None?)
  {
    var arrived := Next(w, Arrive(owner), baseCommit);
    StepKeepsInv(w, Arrive(owner), baseCommit);
    GoneIsGone(arrived, events, owner, baseCommit);
  }

  lemma {:induction false} GoneIsGone(w: Worktree, events: seq<Event>, owner: Owner, baseCommit: Commit)
    requires Inv(w, baseCommit) && w.created && w.directory.Missing? && owner in w.leases && Undisturbing(events, owner)
    ensures var after := Run(w, events, baseCommit);
      && after.created && owner in after.leases && after.directory.Missing?
      && (w.op.Some? && w.op.value.Forgetting? && Fail !in events ==> if Step in events then after.manifest.None? else after.op == w.op)
  {
    if events != [] {
      var init, last := events[..|events| - 1], events[|events| - 1];
      assert Undisturbing(init, owner) && last in events;
      assert events == init + [last];
      GoneIsGone(w, init, owner, baseCommit);
      RunKeepsInv(w, init, baseCommit);
      GoneStep(Run(w, init, baseCommit), last, owner, baseCommit);
    }
  }

  lemma GoneStep(w: Worktree, event: Event, owner: Owner, baseCommit: Commit)
    requires Inv(w, baseCommit) && w.created && w.directory.Missing? && owner in w.leases
    requires event != Release(owner) && !event.Crash? && !event.UserChanges?
    ensures var after := Next(w, event, baseCommit);
      && after.created && owner in after.leases && after.directory.Missing?
      && (w.manifest.None? ==> after.manifest.None?)
      && (w.op.Some? && w.op.value.Forgetting? && event.Step? ==> after.manifest.None?)
      && (w.op.Some? && !event.Step? && !event.Fail? ==> after.op == w.op)
  {}

  /** A lease that arrives after the look, be it before or after the status is read, goes under. */
  lemma ArrivalDuringRemoval(w: Worktree, owner: Owner, baseCommit: Commit) returns (events: seq<Event>)
    requires w.directory.Checkout? && owner in w.arriving && Doomed(w, baseCommit)
    ensures forall e <- events :: e.Step?
    ensures var after := Run(Next(w, Arrive(owner), baseCommit), events, baseCommit);
      owner in after.leases && after.directory.Missing?
  {
    var arrived := Next(w, Arrive(owner), baseCommit);
    events := [Step];
    assert events[..0] == [];
    assert Run(arrived, [Step], baseCommit) == Next(arrived, Step, baseCommit);
    if w.op.value.CheckingStatus? {
      events := [Step, Step];
      assert [Step, Step][..1] == [Step];
      assert Run(arrived, [Step, Step], baseCommit) == Next(Next(arrived, Step, baseCommit), Step, baseCommit);
    }
  }

  lemma {:induction false} NotDoomedIsSafe(w: Worktree, events: seq<Event>, owner: Owner, baseCommit: Commit)
    requires Inv(w, baseCommit) && owner in w.leases && w.directory.Checkout? && !Doomed(w, baseCommit)
    requires Undisturbing(events, owner)
    ensures var after := Run(w, events, baseCommit);
      owner in after.leases && after.directory.Checkout? && !Doomed(after, baseCommit)
  {
    if events != [] {
      var init, last := events[..|events| - 1], events[|events| - 1];
      assert Undisturbing(init, owner) && last in events;
      NotDoomedIsSafe(w, init, owner, baseCommit);
      RunKeepsInv(w, init, baseCommit);
      NotDoomedStep(Run(w, init, baseCommit), last, owner, baseCommit);
    }
  }

  lemma NotDoomedStep(w: Worktree, event: Event, owner: Owner, baseCommit: Commit)
    requires Inv(w, baseCommit) && owner in w.leases && w.directory.Checkout? && !Doomed(w, baseCommit)
    requires event != Release(owner) && !event.Crash? && !event.UserChanges?
    ensures var after := Next(w, event, baseCommit);
      owner in after.leases && after.directory.Checkout? && !Doomed(after, baseCommit)
  {}

  /** That state is reached: a worktree is created and its cleanup has looked at leases and
      status before the creation takes its lease. */
  lemma LeaseRaceIsReachable(baseCommit: Commit, owner: Owner)
    ensures var request := Remove(false);
      var start := Run(Initial(), [Create(owner), Submit(request), Start], baseCommit);
      var looked := Run(start, [Step, Step, Step], baseCommit);
      && looked.directory.Checkout? && Doomed(looked, baseCommit)
      && owner in looked.arriving && owner !in looked.leases
  {
    hide Run;
    var m, request := Manifest({}, None), Remove(false);
    var w := Worktree(true, Some(m), Checkout(false, false, baseCommit), {}, {owner}, [], None, {}, false);
    var start := w.(op := Some(CheckingSessions(request)));
    RunThree(Initial(), Create(owner), Submit(request), Start, baseCommit);
    assert Run(Initial(), [Create(owner), Submit(request), Start], baseCommit) == start by {
      assert Next(Initial(), Create(owner), baseCommit) == w;
      assert Next(w, Submit(request), baseCommit) == w.(queue := [request]);
    }
    RunThree(start, Step, Step, Step, baseCommit);
    assert Run(start, [Step, Step, Step], baseCommit) == w.(op := Some(Removing(request, m))) by {
      assert Next(start, Step, baseCommit) == w.(op := Some(CheckingLeases(request, m)));
      assert Next(w.(op := Some(CheckingLeases(request, m))), Step, baseCommit) == w.(op := Some(CheckingStatus(request, m)));
    }
  }

  lemma RunThree(w: Worktree, a: Event, b: Event, c: Event, baseCommit: Commit)
    ensures Run(w, [a, b, c], baseCommit) == Next(Next(Next(w, a, baseCommit), b, baseCommit), c, baseCommit)
  {
    assert [a, b, c][..2] == [a, b] && [a, b][..1] == [a];
    assert Run(w, [a], baseCommit) == Next(w, a, baseCommit);
    assert Run(w, [a, b], baseCommit) == Next(Run(w, [a], baseCommit), b, baseCommit);
  }

  // ----- Unsaved work -----

  /** A user has asked for the worktree to be deleted with whatever is in it. */
  predicate Deletes(request: Request) {
    request.DeleteRetained? || (request.Remove? && request.discard) || (request.Detach? && request.delete && !request.protect)
  }

  /** A detachment has found the directory empty and removes it by force from now on. */
  predicate Emptied(op: Op) { op.request.Detach? && (op.CheckingSessions? || op.CheckingLeases? || op.Removing?) }

  /** A dirty checkout goes only where that was asked for or the directory had been found empty;
      a detached HEAD that has left its base commit goes also if the user moved it after the
      status was read. */
  lemma UnsavedWorkIsKept(w: Worktree, event: Event, baseCommit: Commit)
    requires Inv(w, baseCommit) && w.directory.Checkout? && !event.UserChanges?
    requires Next(w, event, baseCommit).directory.Missing?
    ensures event == Step && w.op.Some?
    ensures w.directory.dirty ==> Deletes(w.op.value.request) || Emptied(w.op.value)
    ensures AwayFromBase(w.directory, baseCommit) ==> Deletes(w.op.value.request) || Emptied(w.op.value) || w.touched
  {}

  /** Work that a removal without discard is to respect. */
  predicate Unsaved(directory: Directory, baseCommit: Commit) {
    directory.Checkout? && (directory.dirty || AwayFromBase(directory, baseCommit))
  }

  /** Nobody has asked for a deletion. */
  predicate NoneDeletes(w: Worktree) {
    (forall request <- w.queue :: !Deletes(request)) && (w.op.Some? ==> !Deletes(w.op.value.request))
  }

  /** The user leaves the worktree as it is, and nobody asks for a deletion. */
  predicate Conserving(events: seq<Event>) {
    forall e <- events :: !e.UserChanges? && (e.Submit? ==> !Deletes(e.request))
  }

  ghost predicate LosesWork(w: Worktree, baseCommit: Commit) {
    exists events :: Conserving(events) && Run(w, events, baseCommit).directory.Missing?
  }

  /** What the running mutation removes although nobody asked for it: a clean commit made after it
      read the status, and anything put where it had found the directory empty. */
  predicate Endangers(op: Op, work: Directory) {
    work.Checkout? && ((op.Removing? && !work.dirty) || Emptied(op))
  }

  predicate InDanger(w: Worktree, work: Directory) { w.manifest.Some? && w.op.Some? && Endangers(w.op.value, work) }

  /** The exact condition for work to be lost unasked: what the user leaves in the worktree goes
      in some continuation without deletions, if and only if the running mutation endangers it. */
  lemma WorkLostIff(w: Worktree, work: Directory, baseCommit: Commit)
    requires Inv(w, baseCommit) && w.created && NoneDeletes(w) && Unsaved(work, baseCommit)
    ensures LosesWork(Next(w, UserChanges(work), baseCommit), baseCommit) <==> InDanger(w, work)
  {
    var changed := Next(w, UserChanges(work), baseCommit);
    StepKeepsInv(w, UserChanges(work), baseCommit);
    if InDanger(w, work) {
      var events := EndangeredGoes(changed, baseCommit);
      assert Conserving(events);
    } else {
      forall events | Conserving(events) ensures !Run(changed, events, baseCommit).directory.Missing? {
        WorkIsKept(changed, events, baseCommit);
      }
    }
  }

  /** A run in which all leases are given up and the running mutation goes on. */
  lemma EndangeredGoes(w: Worktree, baseCommit: Commit) returns (events: seq<Event>)
    requires Inv(w, baseCommit) && InDanger(w, w.directory)
    ensures Conserving(events) && Run(w, events, baseCommit).directory.Missing?
  {
    var release := ReleaseAll(w, baseCommit);
    var free := Run(w, release, baseCommit);
    hide Run;
    RunSnoc(w, release, Step, baseCommit);
    RunSnoc(w, release + [Step], Step, baseCommit);
    RunSnoc(w, release + [Step] + [Step], Step, baseCommit);
    events := if w.op.value.Removing? then release + [Step]
      else if w.op.value.CheckingLeases? then release + [Step] + [Step] else release + [Step] + [Step] + [Step];
  }

  lemma RunSnoc(w: Worktree, events: seq<Event>, event: Event, baseCommit: Commit)
    ensures Run(w, events + [event], baseCommit) == Next(Run(w, events, baseCommit), event, baseCommit)
  {
    assert (events + [event])[..|events|] == events;
  }

  lemma ReleaseAll(w: Worktree, baseCommit: Commit) returns (events: seq<Event>)
    ensures Conserving(events)
    ensures var after := Run(w, events, baseCommit);
      after.leases == {} && after.op == w.op && after.manifest == w.manifest && after.directory == w.directory
  {
    events := [];
    while Run(w, events, baseCommit).leases != {}
      invariant Conserving(events)
      invariant var after := Run(w, events, baseCommit);
        after.op == w.op && after.manifest == w.manifest && after.directory == w.directory
      decreases Run(w, events, baseCommit).leases
    {
      var owner :| owner in Run(w, events, baseCommit).leases;
      RunSnoc(w, events, Release(owner), baseCommit);
      events := events + [Release(owner)];
    }
  }

  /** Nothing the running mutation will do endangers the work. */
  predicate WorkSafe(w: Worktree, baseCommit: Commit) {
    NoneDeletes(w) && Unsaved(w.directory, baseCommit) && !InDanger(w, w.directory)
  }

  lemma {:induction false} WorkIsKept(w: Worktree, events: seq<Event>, baseCommit: Commit)
    requires Inv(w, baseCommit) && w.created && WorkSafe(w, baseCommit) && Conserving(events)
    ensures var after := Run(w, events, baseCommit); after.created && WorkSafe(after, baseCommit)
  {
    if events != [] {
      var init, last := events[..|events| - 1], events[|events| - 1];
      assert Conserving(init) && last in events;
      WorkIsKept(w, init, baseCommit);
      RunKeepsInv(w, init, baseCommit);
      WorkIsKeptStep(Run(w, init, baseCommit), last, baseCommit);
    }
  }

  lemma WorkIsKeptStep(w: Worktree, event: Event, baseCommit: Commit)
    requires Inv(w, baseCommit) && w.created && WorkSafe(w, baseCommit)
    requires !event.UserChanges? && (event.Submit? ==> !Deletes(event.request))
    ensures var after := Next(w, event, baseCommit); after.created && WorkSafe(after, baseCommit)
  {
    if event.Step? && w.op.Some? && w.op.value.Reading? && w.manifest.Some? {
      PlanKeepsRequest(w.op.value.request, w.manifest.value);
    }
  }

  // ----- What an undisturbed mutation leaves behind -----

  function Steps(w: Worktree, n: nat, baseCommit: Commit): Worktree {
    if n == 0 then w else Next(Steps(w, n - 1, baseCommit), Step, baseCommit)
  }

  /** The run in which a queued mutation starts and takes its next `n` steps. */
  function Undisturbed(n: nat): seq<Event> { [Start] + seq(n, _ => Step) }

  lemma {:induction false} RunSteps(w: Worktree, n: nat, baseCommit: Commit)
    ensures Run(w, Undisturbed(n), baseCommit) == Steps(Next(w, Start, baseCommit), n, baseCommit)
  {
    if n == 0 {
      assert Undisturbed(0) == [Start] && [Start][..0] == [];
    } else {
      RunSteps(w, n - 1, baseCommit);
      assert Undisturbed(n)[..n] == Undisturbed(n - 1);
    }
  }

  lemma {:induction false} StepsSplit(w: Worktree, m: nat, n: nat, baseCommit: Commit)
    ensures Steps(w, m + n, baseCommit) == Steps(Steps(w, m, baseCommit), n, baseCommit)
  {
    if n > 0 {
      StepsSplit(w, m, n - 1, baseCommit);
    }
  }

  lemma ThreeSteps(w: Worktree, baseCommit: Commit)
    ensures Steps(w, 3, baseCommit) == Next(Next(Next(w, Step, baseCommit), Step, baseCommit), Step, baseCommit)
  {
    assert Steps(w, 1, baseCommit) == Next(w, Step, baseCommit);
    assert Steps(w, 2, baseCommit) == Next(Steps(w, 1, baseCommit), Step, baseCommit);
  }

  /** The mutation is next in the queue, and nothing runs. */
  predicate Waiting(w: Worktree, request: Request) {
    w.op.None? && w.queue != [] && w.queue[0] == request && w.manifest.Some?
  }

  /** A mutation that fails leaves manifest, directory and leases as they are, and the next one is
      free to start. */
  lemma FailureLetsNextStart(w: Worktree, baseCommit: Commit)
    requires w.queue != [] && w.manifest.Some?
    ensures var after := Next(w, Fail, baseCommit);
      Waiting(after, w.queue[0]) && after.queue == w.queue && after.leases == w.leases
      && after.manifest == w.manifest && after.directory == w.directory
  {}

  /** The worktree once the first mutation in the queue is out of the way. */
  function Rest(w: Worktree): Worktree
    requires w.queue != []
  {
    w.(queue := w.queue[1..])
  }

  /** The step that reads the manifest, and one that writes it. */
  lemma ReadAndWrite(w: Worktree, request: Request, baseCommit: Commit)
    requires Waiting(w, request) && !request.Remove?
    ensures var plan := Plan(request, w.manifest.value);
      Run(w, Undisturbed(2), baseCommit) ==
        if plan.Some? then Act(Rest(w).(op := plan), baseCommit) else Rest(w)
  {
    RunSteps(w, 2, baseCommit);
    TwoSteps(Next(w, Start, baseCommit), baseCommit);
    hide Run, Steps, Plan;
  }

  /** Attaching adds the reference and ends a retention; a second time it changes nothing. */
  lemma AttachOutcome(w: Worktree, session: SessionId, baseCommit: Commit)
    requires Inv(w, baseCommit) && Waiting(w, Attach(session))
    ensures var m := w.manifest.value;
      Run(w, Undisturbed(2), baseCommit) == Rest(w).(manifest :=
        if session in m.sessions then w.manifest else Some(Manifest(m.sessions + {session}, None)))
  {
    ReadAndWrite(w, Attach(session), baseCommit);
    hide Run;
  }

  /** Once attached, a session keeps its reference and its worktree over every run until it asks
      to be detached. */
  lemma AttachedFromThenOn(w: Worktree, session: SessionId, events: seq<Event>, baseCommit: Commit)
    requires Inv(w, baseCommit) && Waiting(w, Attach(session)) && !w.directory.Missing? && NoneDetaches(w, session)
    requires forall e <- events :: UserSpares(e) && !(e.Submit? && Detaches(e.request, session))
    ensures var after := Run(w, Undisturbed(2) + events, baseCommit);
      HasSession(after, session) && !after.directory.Missing?
  {
    AttachOutcome(w, session, baseCommit);
    RunKeepsInv(w, Undisturbed(2), baseCommit);
    RunConcat(w, Undisturbed(2), events, baseCommit);
    hide Run, Undisturbed, Inv;
    AttachedIsSafe(Run(w, Undisturbed(2), baseCommit), events, session, baseCommit);
  }

  lemma {:induction false} RunConcat(w: Worktree, events: seq<Event>, more: seq<Event>, baseCommit: Commit)
    ensures Run(w, events + more, baseCommit) == Run(Run(w, events, baseCommit), more, baseCommit)
  {
    if more == [] {
      assert events + more == events;
    } else {
      var init := more[..|more| - 1];
      RunConcat(w, events, init, baseCommit);
      assert (events + more)[..|events + more| - 1] == events + init;
    }
  }

  /** Renaming changes the name of a retained worktree, and nothing else. */
  lemma RenameOutcome(w: Worktree, name: Option<Name>, baseCommit: Commit)
    requires Inv(w, baseCommit) && Waiting(w, Rename(name))
    ensures Run(w, Undisturbed(2), baseCommit) ==
      if name.Some? && w.manifest.value.retention.Some?
      then Rest(w).(manifest := Some(Manifest({}, Some(Retention(name.value))))) else Rest(w)
  {
    ReadAndWrite(w, Rename(name), baseCommit);
    hide Run;
  }

  /** A draft nobody refers to is retained under the name of unsent drafts; a worktree in use, or
      retained already, stays as it is. */
  lemma RetainDraftOutcome(w: Worktree, baseCommit: Commit)
    requires Inv(w, baseCommit) && Waiting(w, RetainDraft)
    ensures Run(w, Undisturbed(2), baseCommit) ==
      if w.manifest.value == Manifest({}, None) then Rest(w).(manifest := Some(Manifest({}, Some(Retention("未发送会话"))))) else Rest(w)
  {
    ReadAndWrite(w, RetainDraft, baseCommit);
    hide Run;
  }

  // ----- Creation, restoring and restart -----

  lemma RunTwo(w: Worktree, a: Event, b: Event, baseCommit: Commit)
    ensures Run(w, [a, b], baseCommit) == Next(Next(w, a, baseCommit), b, baseCommit)
  {
    assert [a, b][..1] == [a];
    assert Run(w, [a], baseCommit) == Next(w, a, baseCommit);
  }

  /** A creation ends with a clean checkout of the base commit, a manifest nobody refers to and a
      lease; a restored draft takes a lease exactly if nobody refers to it or retains it. */
  lemma CreateOutcome(w: Worktree, owner: Owner, baseCommit: Commit)
    requires Inv(w, baseCommit)
    ensures !w.created ==>
      Run(w, [Create(owner), Arrive(owner)], baseCommit) ==
        w.(created := true, manifest := Some(Manifest({}, None)), directory := Checkout(false, false, baseCommit),
           leases := {owner}, late := w.late + {owner})
    ensures owner !in w.arriving ==>
      Run(w, [Restore(owner), Arrive(owner)], baseCommit) ==
        if w.manifest == Some(Manifest({}, None))
        then w.(leases := w.leases + {owner}, late := if owner in w.leases then w.late else w.late + {owner}) else w
  {
    RunTwo(w, Create(owner), Arrive(owner), baseCommit);
    RunTwo(w, Restore(owner), Arrive(owner), baseCommit);
    assert w.arriving + {owner} - {owner} == w.arriving - {owner};
    assert owner !in w.arriving ==> w.arriving - {owner} == w.arriving;
    hide Run;
  }

  /** After a crash only what is on disk counts: whatever was leased, queued or running, a removal
      takes the worktree away exactly when no session refers to it and nothing would be lost that
      is not to be dropped. */
  lemma CrashOutcome(w: Worktree, discard: bool, baseCommit: Commit)
    requires Inv(w, baseCommit) && w.manifest.Some? && w.directory.Checkout?
    ensures var after := Run(w, [Crash, Submit(Remove(discard))] + Undisturbed(5), baseCommit);
      var goes := w.manifest.value.sessions == {} && (discard || !(w.directory.dirty || AwayFromBase(w.directory, baseCommit)));
      && after.op.None? && after.leases == {} && after.queue == []
      && (goes ==> after.manifest.None? && after.directory.Missing?)
      && (!goes ==> after.manifest == w.manifest && after.directory == w.directory)
  {
    var request := Remove(discard);
    var crashed := Run(w, [Crash, Submit(request)], baseCommit);
    RunTwo(w, Crash, Submit(request), baseCommit);
    assert crashed.queue == [] + [request];
    RunConcat(w, [Crash, Submit(request)], Undisturbed(5), baseCommit);
    hide Run, Undisturbed;
    RemoveOutcome(crashed, discard, baseCommit);
  }

  /** Resuming repairs only a manifest without sessions, never joins those of others, and takes
      the lease exactly when the session owns the worktree in the end. */
  lemma ClaimOutcome(w: Worktree, session: SessionId, owner: Owner, baseCommit: Commit)
    requires Inv(w, baseCommit) && Waiting(w, Claim(session, owner))
    ensures var m := w.manifest.value;
      Run(w, Undisturbed(3), baseCommit) ==
        if session in m.sessions then Rest(w).(leases := w.leases + {owner})
        else if m.sessions == {} then Rest(w).(leases := w.leases + {owner}, manifest := Some(Manifest({session}, None)))
        else Rest(w)
  {
    RunSteps(w, 3, baseCommit);
    ThreeSteps(Next(w, Start, baseCommit), baseCommit);
    hide Run, Steps;
  }

  lemma {:induction false} StepsIdle(w: Worktree, n: nat, baseCommit: Commit)
    requires w.op.None?
    ensures Steps(w, n, baseCommit) == w
  {
    if n > 0 {
      StepsIdle(w, n - 1, baseCommit);
    }
  }

  /** What a removal finds in the way, apart from leases: anything but a clean checkout on its base,
      where changes are not to be dropped. */
  predicate Removable(w: Worktree, request: Request, baseCommit: Commit) {
    || Discards(request) || w.directory.Missing?
    || (w.directory.Checkout? && !w.directory.dirty && !AwayFromBase(w.directory, baseCommit))
  }

  /** Looking at sessions and leases: a removal goes on only where there is neither. */
  lemma LookOutcome(w: Worktree, request: Request, baseCommit: Commit)
    requires w.op == Some(CheckingSessions(request)) && w.manifest.Some?
    ensures var m := w.manifest.value;
      Steps(w, 2, baseCommit) ==
        if m.sessions != {} || w.leases != {} then w.(op := None)
        else w.(late := {}, op := Some(if Discards(request) || w.directory.Missing? then Removing(request, m) else CheckingStatus(request, m)))
  {
    TwoSteps(w, baseCommit);
    hide Steps;
  }

  lemma TakeAwayOutcome(w: Worktree, request: Request, m: Manifest, baseCommit: Commit)
    requires w.op == Some(if Discards(request) || w.directory.Missing? then Removing(request, m) else CheckingStatus(request, m))
    ensures var after := Steps(w, 3, baseCommit);
      && after.op.None? && after.leases == w.leases && after.queue == w.queue
      && if Removable(w, request, baseCommit) then after.manifest.None? && after.directory.Missing?
         else after.manifest == w.manifest && after.directory == w.directory
  {
    hide Steps, Next, Act;
    if w.op.value.Removing? {
      StepsSplit(w, 2, 1, baseCommit);
      GoesAway(w, request, m, baseCommit);
      StepsIdle(Steps(w, 2, baseCommit), 1, baseCommit);
    } else {
      StepsSplit(w, 1, 2, baseCommit);
      StatusOutcome(w, request, m, baseCommit);
      var looked := Steps(w, 1, baseCommit);
      if looked.op.None? { StepsIdle(looked, 2, baseCommit); } else { GoesAway(looked, request, m, baseCommit); }
    }
  }

  lemma StatusOutcome(w: Worktree, request: Request, m: Manifest, baseCommit: Commit)
    requires w.op == Some(CheckingStatus(request, m))
    ensures Steps(w, 1, baseCommit) ==
      if !w.directory.Checkout? || w.directory.dirty || AwayFromBase(w.directory, baseCommit) then w.(op := None)
      else w.(touched := false, op := Some(Removing(request, m)))
  {
    OneStep(w, baseCommit);
    hide Steps;
  }

  lemma GoesAway(w: Worktree, request: Request, m: Manifest, baseCommit: Commit)
    requires w.op == Some(Removing(request, m))
    requires Discards(request) || w.directory.Missing? || (w.directory.Checkout? && !w.directory.dirty)
    ensures var after := Steps(w, 2, baseCommit);
      && after.op.None? && after.leases == w.leases && after.queue == w.queue
      && after.manifest.None? && after.directory.Missing?
  {
    TwoSteps(w, baseCommit);
    hide Steps;
  }

  lemma RemovalOutcome(w: Worktree, request: Request, baseCommit: Commit)
    requires w.op == Some(CheckingSessions(request)) && w.manifest.Some?
    ensures var after := Steps(w, 5, baseCommit);
      && after.op.None? && after.leases == w.leases && after.queue == w.queue
      && if w.manifest.value.sessions == {} && w.leases == {} && Removable(w, request, baseCommit)
         then after.manifest.None? && after.directory.Missing?
         else after.manifest == w.manifest && after.directory == w.directory
  {
    hide Steps, Act, Next;
    StepsSplit(w, 2, 3, baseCommit);
    LookOutcome(w, request, baseCommit);
    var looked := Steps(w, 2, baseCommit);
    if looked.op.None? {
      StepsIdle(looked, 3, baseCommit);
    } else {
      TakeAwayOutcome(looked, request, w.manifest.value, baseCommit);
    }
  }

  /** A removal from the queue takes the worktree away exactly when no session refers to it, no
      runtime leases it and, unless changes are to be dropped, nothing in it would be lost. */
  lemma RemoveOutcome(w: Worktree, discard: bool, baseCommit: Commit)
    requires Waiting(w, Remove(discard))
    ensures var after := Run(w, Undisturbed(5), baseCommit);
      && after.op.None? && after.leases == w.leases && after.queue == w.queue[1..]
      && if w.manifest.value.sessions == {} && w.leases == {}
            && (discard || w.directory.Missing? || (w.directory.Checkout? && !w.directory.dirty && !AwayFromBase(w.directory, baseCommit)))
         then after.manifest.None? && after.directory.Missing?
         else after.manifest == w.manifest && after.directory == w.directory
  {
    hide Run, Steps, Act;
    RunSteps(w, 5, baseCommit);
    RemovalOutcome(Next(w, Start, baseCommit), Remove(discard), baseCommit);
  }

  /** A retained worktree is deleted on demand, dirty or not, unless a runtime leases it. */
  lemma DeleteRetainedOutcome(w: Worktree, baseCommit: Commit)
    requires Inv(w, baseCommit) && Waiting(w, DeleteRetained)
    ensures var after := Run(w, Undisturbed(6), baseCommit);
      && after.op.None? && after.leases == w.leases && after.queue == w.queue[1..]
      && if w.manifest.value.retention.Some? && w.leases == {} then after.manifest.None? && after.directory.Missing?
         else after.manifest == w.manifest && after.directory == w.directory
  {
    hide Run, Steps;
    var begun := Next(w, Start, baseCommit);
    RunSteps(w, 6, baseCommit);
    StepsSplit(begun, 1, 5, baseCommit);
    OneStep(begun, baseCommit);
    var read := Next(begun, Step, baseCommit);
    if read.op.None? {
      StepsIdle(read, 5, baseCommit);
    } else {
      RemovalOutcome(read, DeleteRetained, baseCommit);
    }
  }

  lemma OneStep(w: Worktree, baseCommit: Commit)
    ensures Steps(w, 1, baseCommit) == Next(w, Step, baseCommit)
  {}

  /** The manifest a detachment leaves, `None` if it fails for want of an acceptable name: other
      sessions keep theirs, and the last one leaves a retention record. */
  function LeftBehind(m: Manifest, session: SessionId, name: Option<Name>): Option<Manifest> {
    if session !in m.sessions then Some(m)
    else if m.sessions != {session} then Some(Manifest(m.sessions - {session}, None))
    else if name.Some? then Some(Manifest({}, Some(Retention(name.value))))
    else None
  }

  /** What a detachment does. The last session takes the worktree with it if it wants it deleted, or
      if there is no checkout in it, unless it is protected or leased; it is retained otherwise,
      as it is, and other sessions keep theirs. */
  lemma DetachOutcome(w: Worktree, session: SessionId, delete: bool, protect: bool, name: Option<Name>, baseCommit: Commit)
    requires Inv(w, baseCommit) && Waiting(w, Detach(session, delete, protect, name))
    ensures var left, after := LeftBehind(w.manifest.value, session, name), Run(w, Undisturbed(9), baseCommit);
      && after.op.None? && after.leases == w.leases && after.queue == w.queue[1..]
      && if left.None? then after.manifest == w.manifest && after.directory == w.directory
         else if left.value.sessions == {} && !protect && w.leases == {} && (delete || !w.directory.Checkout?)
         then after.manifest.None? && after.directory.Missing?
         else after.manifest == left && after.directory == w.directory
  {
    hide Run, Steps, Act, Next, LeftBehind;
    var request := Detach(session, delete, protect, name);
    var begun := Next(w, Start, baseCommit);
    RunSteps(w, 9, baseCommit);
    var n := DetachReleases(w, session, delete, protect, name, baseCommit);
    var released := Steps(begun, n, baseCommit);
    StepsSplit(begun, n, 9 - n, baseCommit);
    if released.op.None? {
      StepsIdle(released, 9 - n, baseCommit);
    } else if delete {
      RemovalOutcome(released, request, baseCommit);
      StepsFinish(released, 5, 4 - n, baseCommit);
    } else {
      EmptiedOutcome(released, request, baseCommit);
      StepsFinish(released, 6, 3 - n, baseCommit);
    }
  }

  lemma StepsFinish(w: Worktree, m: nat, n: nat, baseCommit: Commit)
    requires Steps(w, m, baseCommit).op.None?
    ensures Steps(w, m + n, baseCommit) == Steps(w, m, baseCommit)
  {
    StepsSplit(w, m, n, baseCommit);
    StepsIdle(Steps(w, m, baseCommit), n, baseCommit);
  }

  /** A checkout is not an empty directory; what else there may be goes, and the manifest with it. */
  lemma EmptiedOutcome(w: Worktree, request: Request, baseCommit: Commit)
    requires w.op == Some(RemovingEmpty(request)) && request.Detach?
    requires w.manifest.Some? && w.manifest.value.sessions == {} && w.leases == {}
    ensures var after := Steps(w, 6, baseCommit);
      && after.op.None? && after.leases == w.leases && after.queue == w.queue
      && if w.directory.Checkout? then after.manifest == w.manifest && after.directory == w.directory
         else after.manifest.None? && after.directory.Missing?
  {
    StepsSplit(w, 1, 5, baseCommit);
    OneStep(w, baseCommit);
    hide Steps;
    var removed := Steps(w, 1, baseCommit);
    if w.directory.Checkout? {
      StepsIdle(removed, 5, baseCommit);
    } else {
      RemovalOutcome(removed, request, baseCommit);
    }
  }

  /** Reading, writing if there is anything to write, and the decision about the directory. */
  lemma DetachReleases(w: Worktree, session: SessionId, delete: bool, protect: bool, name: Option<Name>, baseCommit: Commit) returns (n: nat)
    requires Inv(w, baseCommit) && Waiting(w, Detach(session, delete, protect, name))
    ensures n <= 3
    ensures var left, request := LeftBehind(w.manifest.value, session, name), Detach(session, delete, protect, name);
      Steps(Next(w, Start, baseCommit), n, baseCommit) ==
        if left.None? then Rest(w)
        else if left.value.sessions != {} || protect || w.leases != {} then Rest(w).(manifest := left)
        else Rest(w).(manifest := left, op := Some(if delete then CheckingSessions(request) else RemovingEmpty(request)))
  {
    var begun, m := Next(w, Start, baseCommit), w.manifest.value;
    TwoSteps(begun, baseCommit);
    ThreeSteps(begun, baseCommit);
    hide Steps;
    assert session !in m.sessions ==> m.sessions - {session} == m.sessions;
    n := if session !in m.sessions && m.retention.None? then 2 else 3;
  }

  lemma TwoSteps(w: Worktree, baseCommit: Commit)
    ensures Steps(w, 2, baseCommit) == Next(Next(w, Step, baseCommit), Step, baseCommit)
  {
    assert Steps(w, 1, baseCommit) == Next(w, Step, baseCommit);
  }
}
