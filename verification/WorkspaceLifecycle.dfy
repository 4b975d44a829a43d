/** Cleanups of directories against the sessions and drafts that refer to them. */
module WorkspaceLifecycle {
  import opened Options
  import opened WorkspaceManifests
  import opened WorkspacePaths
  import ManagedWorkspaces

  /** A session, or with `None` a draft, and the directory it works in. */
  datatype Reference = Reference(session: Option<SessionId>, directory: Path)

  /** A running cleanup: on whose behalf, whether it has found the directory unshared, and what
      it has asked of the managed workspace. */
  datatype Cleanup = Cleanup(session: Option<SessionId>, unshared: bool, request: Option<ManagedWorkspaces.Request>)

  /** References a cleanup counts; with a session given, that session's own do not. */
  predicate Counts(reference: Reference, session: Option<SessionId>) {
    session.None? || reference.session != session
  }

  /** The session a mutation is made for. */
  function ActsFor(request: ManagedWorkspaces.Request): Option<SessionId> {
    if request.Detach? then Some(request.session) else None
  }

  lemma OverlapsItself(directory: Path)
    ensures DirectoriesOverlap(directory, directory)
  {}

  /** A deletion that is queued or running is the one that was asked for. */
  predicate OnlyAsked(w: ManagedWorkspaces.Workspace, request: Option<ManagedWorkspaces.Request>) {
    && (forall r <- w.queue :: ManagedWorkspaces.Explicit(r) ==> request == Some(r))
    && (w.op.Some? && ManagedWorkspaces.Explicit(w.op.value.request) ==> request == Some(w.op.value.request))
  }

  /** What was asked for is over, well or not. */
  predicate Settled(w: ManagedWorkspaces.Workspace, request: Option<ManagedWorkspaces.Request>) {
    request.Some? ==> request.value !in w.queue && (w.op.Some? ==> w.op.value.request != request.value)
  }

  lemma GoesOn(w: ManagedWorkspaces.Workspace, event: ManagedWorkspaces.Event, request: Option<ManagedWorkspaces.Request>)
    requires ManagedWorkspaces.Inv(w) && OnlyAsked(w, request)
    requires event.Submit? && ManagedWorkspaces.Explicit(event.request) ==> request == Some(event.request)
    ensures var after := ManagedWorkspaces.Next(w, event); ManagedWorkspaces.Inv(after) && OnlyAsked(after, request)
  {
    ManagedWorkspaces.StepKeepsInv(w, event);
    if event.Step? && w.op.Some? && w.op.value.Reading? && w.manifest.Some? {
      ManagedWorkspaces.PlanValid(w.op.value.request, w.manifest.value);
    }
  }

  function Submitted(managed: map<Path, ManagedWorkspaces.Workspace>, directory: Path, request: ManagedWorkspaces.Request)
    : map<Path, ManagedWorkspaces.Workspace>
  {
    if directory in managed then managed[directory := ManagedWorkspaces.Next(managed[directory], ManagedWorkspaces.Submit(request))]
    else managed
  }

  lemma NothingAsked(w: ManagedWorkspaces.Workspace, request: Option<ManagedWorkspaces.Request>)
    requires OnlyAsked(w, None)
    ensures OnlyAsked(w, request)
  {}

  class WorkspaceLifecycle {
    var cleaning: map<Path, Cleanup>
    var references: set<Reference>
    // The managed workspaces there are, by their directories:
    var managed: map<Path, ManagedWorkspaces.Workspace>

    constructor ()
      ensures Valid() && cleaning == map[] && references == {} && managed == map[]
    {
      cleaning, references, managed := map[], {}, map[];
    }

    ghost predicate Disjoint()
      reads this
    {
      forall d <- cleaning, e <- cleaning :: d != e ==> !DirectoriesOverlap(d, e)
    }

    /** What a cleanup has found unshared nobody has come to refer to. */
    ghost predicate Unshared()
      reads this
    {
      forall d <- cleaning, r <- references ::
        cleaning[d].unshared && Counts(r, cleaning[d].session) ==> !DirectoriesOverlap(d, r.directory)
    }

    /** A cleanup asks for a deletion only on behalf of whom it inspected, and only of a
        directory it found unshared. */
    ghost predicate Decided()
      reads this
    {
      forall d <- cleaning :: cleaning[d].request.Some? && ManagedWorkspaces.Explicit(cleaning[d].request.value) ==>
        cleaning[d].unshared && cleaning[d].session == ActsFor(cleaning[d].request.value)
    }

    /** What the cleanup of a directory that is running, if any, has asked of its workspace. */
    function Asked(directory: Path): Option<ManagedWorkspaces.Request>
      reads this
    {
      if directory in cleaning then cleaning[directory].request else None
    }

    /** No deletion but what the cleanup of its very directory asked for is under way. */
    ghost predicate Delegated()
      reads this
    {
      forall d <- managed :: ManagedWorkspaces.Inv(managed[d]) && OnlyAsked(managed[d], Asked(d))
    }

    ghost predicate Valid()
      reads this
    {
      Disjoint() && Unshared() && Decided() && Delegated()
    }

    predicate Available(directory: Path)
      reads this
    {
      forall path <- cleaning :: !DirectoriesOverlap(path, directory)
    }

    /** One turn of the loop: the check and the entry are made without a break between, so the
        entry never replaces that of another cleanup. */
    method TryBegin(directory: Path, session: Option<SessionId>) returns (begun: bool)
      requires Valid()
      modifies this`cleaning
      ensures Valid()
      ensures begun <==> old(Available(directory))
      ensures begun ==> directory !in old(cleaning)
      ensures cleaning == if begun then old(cleaning)[directory := Cleanup(session, false, None)] else old(cleaning)
    {
      begun := Available(directory);
      if begun {
        OverlapsItself(directory);
        cleaning := cleaning[directory := Cleanup(session, false, None)];
        forall d <- cleaning, e <- cleaning | d != e ensures !DirectoriesOverlap(d, e) {}
      }
    }

    /** `shared`, asked inside the cleanup: of the sessions of the record, and of the references. */
    method Inspect(directory: Path, sessions: set<SessionId>) returns (shared: bool)
      requires Valid() && directory in cleaning && cleaning[directory].request.None?
      modifies this`cleaning
      ensures Valid()
      ensures var session := old(cleaning[directory]).session;
        shared <==> ((exists id <- sessions :: session != Some(id))
                     || (exists r <- references :: Counts(r, session) && DirectoriesOverlap(directory, r.directory)))
      ensures cleaning == old(cleaning)[directory := old(cleaning[directory]).(unshared := !shared)]
    {
      var session := cleaning[directory].session;
      shared := exists id <- sessions :: session != Some(id);
      if !shared {
        shared := exists r <- references :: Counts(r, session) && DirectoriesOverlap(directory, r.directory);
      }
      cleaning := cleaning[directory := cleaning[directory].(unshared := !shared)];
    }

    /** `release` inside its cleanup, up to the mutation it asks for: the files may go only when
        the user said so and the directory is not shared. */
    method Release(directory: Path, sessions: set<SessionId>, delete: bool, name: Name) returns (request: ManagedWorkspaces.Request)
      requires Valid() && directory in cleaning && cleaning[directory].session.Some? && cleaning[directory].request.None?
      modifies this`cleaning, this`managed
      ensures Valid() && cleaning.Keys == old(cleaning).Keys && cleaning[directory].request == Some(request)
      ensures managed == Submitted(old(managed), directory, request)
      ensures var session := old(cleaning[directory]).session;
        && request.Detach? && request.session == session.value && request.options.name == Some(name)
        && (ManagedWorkspaces.Explicit(request) <==>
              delete && sessions <= {session.value}
              && (forall r <- references :: Counts(r, session) ==> !DirectoriesOverlap(directory, r.directory)))
    {
      var shared := Inspect(directory, sessions);
      request := ManagedWorkspaces.Detach(cleaning[directory].session.value, ManagedWorkspaces.Release(delete, Some(name), shared));
      Submit(directory, request);
    }

    /** The request goes into the queue of the workspace, if it is a managed one. */
    method Submit(directory: Path, request: ManagedWorkspaces.Request)
      requires Valid() && directory in cleaning && cleaning[directory].request.None?
      requires ManagedWorkspaces.Explicit(request) ==> cleaning[directory].unshared && cleaning[directory].session == ActsFor(request)
      modifies this`cleaning, this`managed
      ensures Valid() && managed == Submitted(old(managed), directory, request)
      ensures cleaning == old(cleaning)[directory := old(cleaning[directory]).(request := Some(request))]
    {
      hide ManagedWorkspaces.Next, ManagedWorkspaces.Inv;
      if directory in managed {
        NothingAsked(managed[directory], Some(request));
        GoesOn(managed[directory], ManagedWorkspaces.Submit(request), Some(request));
      }
      managed := Submitted(managed, directory, request);
      cleaning := cleaning[directory := cleaning[directory].(request := Some(request))];
    }

    /** `deleteRetained` inside its cleanup: refused when the directory is shared. */
    method DeleteRetained(directory: Path, sessions: set<SessionId>) returns (request: Option<ManagedWorkspaces.Request>)
      requires Valid() && directory in cleaning && cleaning[directory].session.None? && cleaning[directory].request.None?
      modifies this`cleaning, this`managed
      ensures Valid() && cleaning.Keys == old(cleaning).Keys && cleaning[directory].request == request
      ensures managed == if request.Some? then Submitted(old(managed), directory, request.value) else old(managed)
      ensures request == if sessions == {} && (forall r <- references :: !DirectoriesOverlap(directory, r.directory))
        then Some(ManagedWorkspaces.DeleteRetained) else None
    {
      var shared := Inspect(directory, sessions);
      if shared { return None; }
      Submit(directory, ManagedWorkspaces.DeleteRetained);
      request := Some(ManagedWorkspaces.DeleteRetained);
    }

    /** The workspace goes on in any way of its own, and others ask it for anything but deletions. */
    method Advance(directory: Path, event: ManagedWorkspaces.Event)
      requires Valid() && directory in managed
      requires event.Submit? ==> !ManagedWorkspaces.Explicit(event.request)
      modifies this`managed
      ensures Valid() && managed == old(managed)[directory := ManagedWorkspaces.Next(old(managed[directory]), event)]
    {
      hide ManagedWorkspaces.Next, ManagedWorkspaces.Inv, OnlyAsked;
      GoesOn(managed[directory], event, Asked(directory));
      managed := managed[directory := ManagedWorkspaces.Next(managed[directory], event)];
    }

    /** A directory becomes the planned one of a workspace. */
    method Plan(directory: Path, content: ManagedWorkspaces.Directory)
      requires Valid() && directory !in managed
      modifies this`managed
      ensures Valid() && managed == old(managed)[directory := ManagedWorkspaces.Initial(content)]
    {
      managed := managed[directory := ManagedWorkspaces.Initial(content)];
    }

    /** The host goes down, and with it cleanups, references and queues. */
    method Crash()
      requires Valid()
      modifies this
      ensures Valid() && cleaning == map[] && references == {} && managed.Keys == old(managed).Keys
      ensures forall d <- managed :: managed[d] == ManagedWorkspaces.Next(old(managed)[d], ManagedWorkspaces.Crash)
    {
      forall d <- managed ensures ManagedWorkspaces.Inv(ManagedWorkspaces.Next(managed[d], ManagedWorkspaces.Crash)) {
        ManagedWorkspaces.StepKeepsInv(managed[d], ManagedWorkspaces.Crash);
      }
      hide ManagedWorkspaces.Inv;
      cleaning, references := map[], {};
      managed := map d | d in managed :: ManagedWorkspaces.Next(managed[d], ManagedWorkspaces.Crash);
    }

    /** A cleanup ends only when what it asked for is over. */
    method Finish(directory: Path)
      requires Valid() && directory in cleaning
      requires directory in managed ==> Settled(managed[directory], cleaning[directory].request)
      modifies this`cleaning
      ensures Valid() && cleaning == old(cleaning) - {directory}
    {
      hide ManagedWorkspaces.Inv;
      cleaning := cleaning - {directory};
    }

    /** A session or draft starts to work in a directory, guarded by `assertAvailable`. */
    method Select(reference: Reference) returns (ok: bool)
      requires Valid()
      modifies this`references
      ensures Valid()
      ensures ok <==> Available(reference.directory)
      ensures references == if ok then old(references) + {reference} else old(references)
    {
      ok := Available(reference.directory);
      if ok {
        references := references + {reference};
      }
    }

    method Leave(reference: Reference)
      requires Valid()
      modifies this`references
      ensures Valid() && references == old(references) - {reference}
    {
      references := references - {reference};
    }

    /** While an unshared directory is being cleaned, no path in it is in use by any counted
        reference, and no other cleanup works on it. */
    lemma CleanupIsAlone(directory: Path, path: Path)
      requires Valid() && directory in cleaning && cleaning[directory].unshared
      requires Resolved(directory) && Resolved(path) && ContainsPath(directory, path)
      requires (forall d <- cleaning :: Resolved(d)) && (forall r <- references :: Resolved(r.directory))
      ensures forall r <- references :: Counts(r, cleaning[directory].session) ==> !ContainsPath(r.directory, path)
      ensures forall d <- cleaning :: d != directory ==> !ContainsPath(d, path)
    {
      forall r <- references | Counts(r, cleaning[directory].session) ensures !ContainsPath(r.directory, path) {
        OverlapIsSharedPath(directory, r.directory);
      }
      forall d <- cleaning | d != directory ensures !ContainsPath(d, path) {
        OverlapIsSharedPath(directory, d);
      }
    }

    /** Over everything that can happen: a file of a managed workspace, which the user leaves alone,
        goes only while the cleanup of its directory runs that asked for the deletion; and then
        nobody but the session that gives the workspace up refers to any directory with a path in
        it, and no other cleanup works there. */
    lemma DeletionIsAlone(directory: Path, event: ManagedWorkspaces.Event, file: ManagedWorkspaces.File, path: Path)
      requires Valid() && directory in managed
      requires ManagedWorkspaces.Holds(managed[directory], file) && ManagedWorkspaces.Spares(event, file)
      requires !ManagedWorkspaces.Holds(ManagedWorkspaces.Next(managed[directory], event), file)
      requires Resolved(directory) && Resolved(path) && ContainsPath(directory, path)
      requires (forall d <- cleaning :: Resolved(d)) && (forall r <- references :: Resolved(r.directory))
      ensures Asked(directory).Some? && ManagedWorkspaces.Explicit(Asked(directory).value)
      ensures var manifest := managed[directory].manifest;
        manifest.Some? ==> forall id <- manifest.value.sessions :: ActsFor(Asked(directory).value) == Some(id)
      ensures forall r <- references :: Counts(r, ActsFor(Asked(directory).value)) ==> !ContainsPath(r.directory, path)
      ensures forall d <- cleaning :: d != directory ==> !ContainsPath(d, path)
    {
      hide ContainsPath, Resolved;
      ManagedWorkspaces.FilesGoOnlyByExplicitDelete(managed[directory], event, file);
      CleanupIsAlone(directory, path);
    }
  }
}
