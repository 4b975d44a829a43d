/** The main document of a browser tab, driven by requests and by the guest's events in
    whatever order they come. */
module BrowserDocument {
  import opened Options

  datatype Phase = Preparing | Requested | Loading | Committed | Ready

  /** `Interrupted` means aborted, replaced or turned into a download. */
  datatype Failure = Interrupted | Other(message: string)

  datatype Retained = Retained(ready: bool, error: Option<Failure>)

  /** Documents are objects, told apart by `id`. */
  datatype Document = Document(id: nat, phase: Phase, error: Option<Failure>, retained: Option<Retained>)

  /** A running `loadURL`: the request and the document it was started for. */
  datatype Load = Load(request: nat, document: nat)

  datatype LoadError = Aborted | NetworkError(message: string) | UnknownError(message: string)

  datatype Poll = Done | Again | Closed | Superseded | Failed(error: Failure)

  predicate Uncommitted(phase: Phase) { phase.Preparing? || phase.Requested? || phase.Loading? }

  predicate IsInterrupted(error: Option<Failure>) { error == Some(Interrupted) }

  // ----- A tab as a machine -----

  datatype Tab = Tab(request: nat, closed: bool, document: Document, documents: nat)

  /** Calls of the host and events of the guest, in the order they come. */
  datatype Event =
    | Begin
    | Fail(request: nat, failure: Failure)
    | HandOver(request: nat, destroyed: bool)      // the start of `load`
    | Rejected(load: Load, error: LoadError)       // `loadURL` rejects
    | Started(mainFrame: bool, sameDocument: bool)
    | DidNavigate
    | DomReady
    | InPage(mainFrame: bool)
    | DidFailLoad(aborted: bool, message: string, mainFrame: bool)
    | Stopped
    | Close

  function Initial(): Tab { Tab(0, false, Document(0, Preparing, None, None), 1) }

  /** A new document keeps the state of the one its chain of navigations left. */
  function Renewed(t: Tab, phase: Phase): Tab {
    t.(document := Document(t.documents, phase, None,
         if Uncommitted(t.document.phase) then t.document.retained
         else Some(Retained(t.document.phase.Ready?, t.document.error))),
       documents := t.documents + 1)
  }

  function WithError(t: Tab, error: Failure): Tab { t.(document := t.document.(error := Some(error))) }

  predicate Accepts(t: Tab, request: nat, destroyed: bool) { !t.closed && !destroyed && request == t.request }

  /** Once the tab is closed its listeners are gone. */
  function Next(t: Tab, event: Event): Tab {
    match event
    case Begin => Renewed(t, Preparing).(request := t.request + 1)
    case Fail(r, failure) => if !t.closed && r == t.request then WithError(t, failure) else t
    case HandOver(r, destroyed) => if Accepts(t, r, destroyed) then t.(document := t.document.(phase := Requested)) else t
    case Rejected(load, error) =>
      if t.closed || load.request != t.request || load.document != t.document.id || t.document.error.Some? then t
      else if !error.Aborted? then WithError(t, Other(error.message))
      else if t.document.phase.Ready? then t else WithError(t, Interrupted)
    case Started(mainFrame, sameDocument) =>
      if t.closed || !mainFrame || sameDocument then t
      else
        var counted := t.(request := t.request + if t.document.phase.Preparing? then 1 else 0);
        if t.document.phase.Requested? then counted.(document := t.document.(phase := Loading)) else Renewed(counted, Loading)
    case DidNavigate =>
      if !t.closed && t.document.phase.Loading? then t.(document := t.document.(phase := Committed, retained := None)) else t
    case DomReady =>
      if !t.closed && t.document.phase.Committed? && t.document.error.None? then t.(document := t.document.(phase := Ready)) else t
    case InPage(mainFrame) =>
      if !t.closed && mainFrame && t.document.phase.Requested? && t.document.retained.Some? && t.document.retained.value.ready
      then t.(document := Document(t.documents, Ready, t.document.retained.value.error, None), documents := t.documents + 1)
      else t
    case DidFailLoad(aborted, message, mainFrame) =>
      if !t.closed && mainFrame && !aborted then WithError(t, Other(message)) else t
    case Stopped =>
      if !t.closed && (t.document.phase.Requested? || t.document.phase.Loading?) && t.document.error.None?
      then WithError(t, Interrupted) else t
    case Close => t.(closed := true)
  }

  function Run(events: seq<Event>): Tab {
    if events == [] then Initial() else Next(Run(events[..|events| - 1]), events[|events| - 1])
  }

  lemma RunSnoc(events: seq<Event>, event: Event)
    ensures Run(events + [event]) == Next(Run(events), event)
  {
    assert (events + [event])[..|events|] == events;
  }

  function ErrorOf(d: Document): Option<Failure> {
    if IsInterrupted(d.error) && d.retained.Some? && d.retained.value.ready then d.retained.value.error else d.error
  }

  predicate ShowsReady(d: Document) {
    ErrorOf(d).None? && (d.phase.Ready? || (IsInterrupted(d.error) && d.retained.Some? && d.retained.value.ready))
  }

  // ----- What the list of events says -----

  /** The tab before the `k`-th event. */
  function At(events: seq<Event>, k: nat): Tab
    requires k <= |events|
  {
    Run(events[..k])
  }

  /** A request is made, its address handed over, or another document's navigation starts in the main frame. */
  predicate Moves(t: Tab, event: Event) {
    event.Begin? || (event.HandOver? && Accepts(t, event.request, event.destroyed)) || (event == Started(true, false) && !t.closed)
  }

  predicate MovesAt(events: seq<Event>, k: nat)
    requires k < |events|
  {
    Moves(At(events, k), events[k])
  }

  predicate NavigatesAt(events: seq<Event>, k: nat)
    requires k < |events|
  {
    events[k].DidNavigate? && !At(events, k).closed
  }

  /** A navigation started at `s`, and since then nothing else moved and nothing was committed. */
  ghost predicate StartingSince(events: seq<Event>, s: nat) {
    s < |events| && events[s] == Started(true, false) && !At(events, s).closed && QuietAfter(events, s)
  }

  ghost predicate QuietAfter(events: seq<Event>, s: nat) {
    forall m :: s < m < |events| ==> !MovesAt(events, m) && !NavigatesAt(events, m)
  }

  /** A `did-navigate` of a navigation that had started. */
  ghost predicate CommitsAt(events: seq<Event>, i: nat) {
    i < |events| && NavigatesAt(events, i) && exists s: nat :: StartingSince(events[..i], s)
  }

  /** A commit, the dom-ready that followed it before anything moved, and no commit since. */
  ghost predicate ReadyCommit(events: seq<Event>, i: nat, j: nat) {
    && i < j < |events| && CommitsAt(events, i) && events[j].DomReady?
    && (forall m :: i < m < j ==> !MovesAt(events, m))
    && (forall k :: i < k < |events| ==> !CommitsAt(events, k))
  }

  /** Nothing has moved after `j`. */
  ghost predicate StillSince(events: seq<Event>, j: nat) {
    j < |events| && forall m :: j < m < |events| ==> !MovesAt(events, m)
  }

  /** An address was handed over at `h`, and nothing has moved since. */
  ghost predicate HandedOverSince(events: seq<Event>, h: nat) {
    h < |events| && events[h].HandOver? && MovesAt(events, h) && StillSince(events, h)
  }

  /** An in-page navigation of the main frame after `h`. */
  ghost predicate InPageSince(events: seq<Event>, h: nat) {
    exists k :: h < k < |events| && events[k] == InPage(true) && !At(events, k).closed
  }

  /** The last commit had its dom-ready at `j`, and nothing has moved since. */
  ghost predicate Settled(events: seq<Event>, i: nat, j: nat) { ReadyCommit(events, i, j) && StillSince(events, j) }

  /** The last thing that moved was a hand-over, and an in-page navigation came after it. */
  ghost predicate Restored(events: seq<Event>, h: nat) { HandedOverSince(events, h) && InPageSince(events, h) }

  lemma PrefixAt(events: seq<Event>, event: Event, k: nat)
    requires k <= |events|
    ensures (events + [event])[..k] == events[..k] && At(events + [event], k) == At(events, k)
  {}

  lemma MovesKept(events: seq<Event>, event: Event, k: nat)
    requires k < |events|
    ensures MovesAt(events + [event], k) == MovesAt(events, k) && NavigatesAt(events + [event], k) == NavigatesAt(events, k)
    ensures CommitsAt(events + [event], k) == CommitsAt(events, k)
  {
    PrefixAt(events, event, k);
  }

  lemma LastAt(events: seq<Event>, event: Event)
    ensures At(events + [event], |events|) == Run(events)
    ensures (events + [event])[..|events|] == events
  {
    assert (events + [event])[..|events|] == events;
  }

  /** What the last event is, seen from the longer list. */
  lemma LastMoves(events: seq<Event>, event: Event)
    ensures var more := events + [event];
      && MovesAt(more, |events|) == Moves(Run(events), event)
      && NavigatesAt(more, |events|) == (event.DidNavigate? && !Run(events).closed)
      && At(more, |events|) == Run(events)
  {
    LastAt(events, event);
  }

  lemma QuietSnoc(events: seq<Event>, event: Event, s: nat)
    requires s < |events|
    ensures var t := Run(events);
      QuietAfter(events + [event], s) <==> QuietAfter(events, s) && !Moves(t, event) && !(event.DidNavigate? && !t.closed)
  {
    var more := events + [event];
    LastMoves(events, event);
    forall m | 0 <= m < |events| ensures MovesAt(more, m) == MovesAt(events, m) && NavigatesAt(more, m) == NavigatesAt(events, m) {
      MovesKept(events, event, m);
    }
    hide Run, Moves, MovesAt, NavigatesAt, At;
    if QuietAfter(more, s) {
      assert forall m :: s < m < |more| ==> !MovesAt(more, m) && !NavigatesAt(more, m);
      assert !MovesAt(more, |events|) && !NavigatesAt(more, |events|);
    }
  }

  lemma StartingSnoc(events: seq<Event>, event: Event, s: nat)
    ensures var t := Run(events);
      StartingSince(events + [event], s) <==>
        if s == |events| then event == Started(true, false) && !t.closed
        else StartingSince(events, s) && !Moves(t, event) && !(event.DidNavigate? && !t.closed)
  {
    var more := events + [event];
    LastMoves(events, event);
    if s < |events| {
      PrefixAt(events, event, s);
      QuietSnoc(events, event, s);
      assert more[s] == events[s];
      hide QuietAfter;
    } else if s == |events| {
      assert QuietAfter(more, s) && more[s] == event;
      hide QuietAfter;
    }
    hide Run, Moves, MovesAt, NavigatesAt, At;
  }

  /** The document is loading exactly when, by the list alone, a navigation has started and
      neither moved on nor been committed. */
  lemma {:induction false} LoadingIff(events: seq<Event>)
    ensures Run(events).document.phase.Loading? <==> exists s: nat :: StartingSince(events, s)
  {
    if events != [] {
      var init, event := events[..|events| - 1], events[|events| - 1];
      assert events == init + [event];
      LoadingIff(init);
      forall s: nat ensures StartingSince(events, s) <==>
        if s == |init| then event == Started(true, false) && !Run(init).closed
        else StartingSince(init, s) && !Moves(Run(init), event) && !(event.DidNavigate? && !Run(init).closed)
      {
        StartingSnoc(init, event, s);
      }
      LoadingStep(Run(init), event);
      assert StartingSince(events, |init|) <==> event == Started(true, false) && !Run(init).closed;
      hide StartingSince, Next, Moves;
    }
  }

  lemma LoadingStep(t: Tab, event: Event)
    ensures var starts := event == Started(true, false) && !t.closed;
      Next(t, event).document.phase.Loading? <==>
        starts || (t.document.phase.Loading? && !Moves(t, event) && !(event.DidNavigate? && !t.closed))
  {}

  lemma CommitIsLoading(events: seq<Event>, i: nat)
    requires i < |events|
    ensures CommitsAt(events, i) <==> NavigatesAt(events, i) && At(events, i).document.phase.Loading?
  {
    LoadingIff(events[..i]);
  }

  /** The last commit, with nothing that moved since. */
  ghost predicate FreshCommit(events: seq<Event>, i: nat) {
    i < |events| && CommitsAt(events, i) && forall m :: i < m < |events| ==> !MovesAt(events, m) && !CommitsAt(events, m)
  }

  /** What ends a navigation that will not be committed. */
  predicate Interrupts(event: Event) {
    event.Stopped? || (event.Rejected? && event.error.Aborted?) || (event.Fail? && event.failure.Interrupted?)
  }

  /** At `m` the document was left that `d` retains the state of; nothing was committed since, and
      an interruption that `d` shows came after that. */
  ghost predicate LeftAt(events: seq<Event>, m: nat, d: Document) {
    && m < |events| && MovesAt(events, m)
    && var past := At(events, m).document;
    && !Uncommitted(past.phase) && d.retained == Some(Retained(past.phase.Ready?, past.error))
    && (forall k :: m < k <= |events| ==> Uncommitted(At(events, k).document.phase))
    && (IsInterrupted(d.error) ==> exists n :: m < n < |events| && Interrupts(events[n]))
  }

  ghost predicate Inv(events: seq<Event>) {
    var d := Run(events).document;
    && (d.retained.Some? ==> Uncommitted(d.phase) && exists m: nat :: LeftAt(events, m, d))
    && (d.phase.Committed? ==> exists i: nat :: FreshCommit(events, i))
    && (d.phase.Ready? || (d.retained.Some? && d.retained.value.ready) ==> exists i: nat, j: nat :: ReadyCommit(events, i, j))
    && (d.phase.Requested? ==> exists h: nat :: HandedOverSince(events, h))
    && (d.phase.Ready? ==> (exists i: nat, j: nat :: Settled(events, i, j)) || exists h: nat :: Restored(events, h))
  }

  lemma CommitsSnoc(events: seq<Event>, event: Event)
    ensures var more := events + [event];
      && (CommitsAt(more, |events|) <==> event.DidNavigate? && !Run(events).closed && Run(events).document.phase.Loading?)
      && MovesAt(more, |events|) == Moves(Run(events), event)
      && forall k :: 0 <= k < |events| ==> MovesAt(more, k) == MovesAt(events, k) && CommitsAt(more, k) == CommitsAt(events, k)
  {
    hide Run, Moves, StartingSince;
    LastAt(events, event);
    CommitIsLoading(events + [event], |events|);
    forall k | 0 <= k < |events|
      ensures MovesAt(events + [event], k) == MovesAt(events, k) && CommitsAt(events + [event], k) == CommitsAt(events, k)
    {
      MovesKept(events, event, k);
    }
  }

  lemma FreshSnoc(events: seq<Event>, event: Event, i: nat)
    requires FreshCommit(events, i) && !Moves(Run(events), event) && !Run(events).document.phase.Loading?
    ensures FreshCommit(events + [event], i)
  {
    hide Run, Moves, CommitsAt, MovesAt;
    CommitsSnoc(events, event);
  }

  lemma ReadySnoc(events: seq<Event>, event: Event, i: nat, j: nat)
    requires ReadyCommit(events, i, j) && !(event.DidNavigate? && !Run(events).closed && Run(events).document.phase.Loading?)
    ensures ReadyCommit(events + [event], i, j)
  {
    hide Run, Moves, CommitsAt, MovesAt;
    CommitsSnoc(events, event);
  }

  lemma ReadyBegins(events: seq<Event>, i: nat)
    requires FreshCommit(events, i) && Run(events).document.phase.Committed?
    ensures ReadyCommit(events + [DomReady], i, |events|)
  {
    hide Run, Moves, CommitsAt, MovesAt;
    CommitsSnoc(events, DomReady);
  }

  lemma StillSnoc(events: seq<Event>, event: Event, j: nat)
    requires StillSince(events, j) && !Moves(Run(events), event)
    ensures StillSince(events + [event], j)
  {
    hide Run, Moves, CommitsAt, MovesAt;
    CommitsSnoc(events, event);
  }

  lemma HandedSnoc(events: seq<Event>, event: Event, h: nat)
    requires HandedOverSince(events, h) && !Moves(Run(events), event)
    ensures HandedOverSince(events + [event], h)
    ensures InPageSince(events + [event], h) <==> InPageSince(events, h) || (event == InPage(true) && !Run(events).closed)
  {
    StillSnoc(events, event, h);
    CommitsSnoc(events, event);
    LastAt(events, event);
    hide Run, Moves, MovesAt, StillSince, CommitsAt;
    var more := events + [event];
    forall k | 0 <= k < |events| ensures more[k] == events[k] && At(more, k) == At(events, k) {
      PrefixAt(events, event, k);
    }
    hide At;
    if InPageSince(events, h) {
      var k :| h < k < |events| && events[k] == InPage(true) && !At(events, k).closed;
      assert more[k] == InPage(true) && !At(more, k).closed;
    }
    if event == InPage(true) && !Run(events).closed {
      assert more[|events|] == InPage(true) && !At(more, |events|).closed;
    }
  }

  lemma LeftSnoc(events: seq<Event>, event: Event, m: nat, d: Document, after: Document)
    requires LeftAt(events, m, d) && after.retained == d.retained && after == Run(events + [event]).document
    requires Uncommitted(after.phase)
    requires IsInterrupted(after.error) ==> IsInterrupted(d.error) || Interrupts(event)
    ensures LeftAt(events + [event], m, after)
  {
    hide Run, Moves;
    var more := events + [event];
    MovesKept(events, event, m);
    assert more[..|more|] == more;
    forall k | m < k <= |more| ensures Uncommitted(At(more, k).document.phase) {
      if k <= |events| { PrefixAt(events, event, k); }
    }
    PrefixAt(events, event, m);
    if IsInterrupted(after.error) {
      if Interrupts(event) {
        assert more[|events|] == event;
      } else {
        var n :| m < n < |events| && Interrupts(events[n]);
        assert more[n] == events[n];
      }
    }
  }

  lemma Leaving(t: Tab, event: Event)
    requires Moves(t, event) && !Uncommitted(t.document.phase) && (event.Begin? || event.Started?)
    ensures var d, after := t.document, Next(t, event).document;
      after.retained == Some(Retained(d.phase.Ready?, d.error)) && Uncommitted(after.phase) && after.error.None?
  {}

  /** A navigation leaves a committed document. */
  lemma LeftBegins(events: seq<Event>, event: Event)
    requires Moves(Run(events), event) && !Uncommitted(Run(events).document.phase)
    requires event.Begin? || event.Started?
    ensures LeftAt(events + [event], |events|, Run(events + [event]).document)
  {
    var more := events + [event];
    Leaving(Run(events), event);
    RunSnoc(events, event);
    LastAt(events, event);
    assert more[..|more|] == more;
    assert MovesAt(more, |events|);
    var past, d := At(more, |events|).document, Run(more).document;
    hide Run, Next, Moves, MovesAt;
    assert past == Run(events).document;
    assert At(more, |more|) == Run(more);
    hide At, Uncommitted;
    assert !IsInterrupted(d.error);
    forall k | |events| < k <= |more| ensures Uncommitted(At(more, k).document.phase) {
      assert k == |more|;
    }
  }

  /** How one event changes phase, retained state and error. */
  lemma Changes(t: Tab, event: Event)
    requires t.document.retained.Some? ==> Uncommitted(t.document.phase)
    ensures var d, after := t.document, Next(t, event).document;
      var leaves := Moves(t, event) && !Uncommitted(d.phase) && !event.HandOver?;
      var restores := after.phase.Ready? && !d.phase.Ready? && !event.DomReady?;
      && (after.phase.Committed? ==> (d.phase.Committed? && !Moves(t, event)) || (event.DidNavigate? && !t.closed && d.phase.Loading?))
      && (after.phase.Ready? && !restores ==> d.phase.Ready? || (event.DomReady? && d.phase.Committed?))
      && (restores ==> d.retained.Some? && d.retained.value.ready && d.phase.Requested? && event == InPage(true) && !t.closed)
      && (after.phase.Ready? ==> !Moves(t, event))
      && (after.phase.Requested? ==> (d.phase.Requested? && !Moves(t, event)) || (event.HandOver? && Moves(t, event)))
      && (after.phase.Ready? ==> !(event.DidNavigate? && !t.closed && d.phase.Loading?))
      && (after.retained.Some? && !leaves ==> after.retained == d.retained && Uncommitted(after.phase))
      && (after.retained.Some? && !leaves && IsInterrupted(after.error) ==> IsInterrupted(d.error) || Interrupts(event))
      && (after.retained.Some? && d.retained.Some? ==> !(event.DidNavigate? && !t.closed && d.phase.Loading?))
      && (leaves ==> after.retained.Some? && (after.retained.value.ready <==> d.phase.Ready?) && Uncommitted(after.phase))
  {}

  lemma InvStep(events: seq<Event>, event: Event)
    requires Inv(events)
    ensures Inv(events + [event])
  {
    var t, d, after := Run(events), Run(events).document, Run(events + [event]).document;
    RunSnoc(events, event);
    Changes(t, event);
    CommitsSnoc(events, event);
    hide Run, Next, LeftAt, FreshCommit, ReadyCommit, CommitsAt, HandedOverSince, Settled, Restored;
    if after.retained.Some? { LeftGoesOn(events, event); }
    if after.phase.Requested? { HandedGoesOn(events, event); }
    if after.phase.Ready? { StillReady(events, event); }
    if after.phase.Committed? { FreshGoesOn(events, event); }
    if after.phase.Ready? || (after.retained.Some? && after.retained.value.ready) { ReadyGoesOn(events, event); }
  }

  lemma LeftGoesOn(events: seq<Event>, event: Event)
    requires Inv(events) && Run(events + [event]).document.retained.Some?
    ensures var after := Run(events + [event]).document; Uncommitted(after.phase) && exists m: nat :: LeftAt(events + [event], m, after)
  {
    var t, d, after := Run(events), Run(events).document, Run(events + [event]).document;
    RunSnoc(events, event);
    Changes(t, event);
    hide Run, Next, LeftAt, Moves;
    if Moves(t, event) && !Uncommitted(d.phase) && !event.HandOver? {
      MovesAre(t, event);
      LeftBegins(events, event);
    } else {
      var m: nat :| LeftAt(events, m, d);
      LeftSnoc(events, event, m, d, after);
    }
  }

  lemma MovesAre(t: Tab, event: Event)
    requires Moves(t, event) && !event.HandOver?
    ensures event.Begin? || event.Started?
  {}

  lemma FreshGoesOn(events: seq<Event>, event: Event)
    requires Inv(events) && Run(events + [event]).document.phase.Committed?
    ensures exists i: nat :: FreshCommit(events + [event], i)
  {
    var t, d := Run(events), Run(events).document;
    RunSnoc(events, event);
    Changes(t, event);
    CommitsSnoc(events, event);
    hide Run, Next, Moves;
    if event.DidNavigate? && !t.closed && d.phase.Loading? {
      assert FreshCommit(events + [event], |events|);
    } else {
      var i: nat :| FreshCommit(events, i);
      FreshSnoc(events, event, i);
    }
  }

  lemma ReadyGoesOn(events: seq<Event>, event: Event)
    requires Inv(events)
    requires var after := Run(events + [event]).document; after.phase.Ready? || (after.retained.Some? && after.retained.value.ready)
    ensures exists i: nat, j: nat :: ReadyCommit(events + [event], i, j)
  {
    var t, d, after := Run(events), Run(events).document, Run(events + [event]).document;
    RunSnoc(events, event);
    Changes(t, event);
    hide Run, Next, Moves, ReadyCommit, FreshCommit;
    if d.phase.Ready? || (d.retained.Some? && d.retained.value.ready) {
      var i: nat, j: nat :| ReadyCommit(events, i, j);
      ReadySnoc(events, event, i, j);
    } else {
      var i: nat :| FreshCommit(events, i);
      ReadyBegins(events, i);
    }
  }

  lemma HandedGoesOn(events: seq<Event>, event: Event)
    requires Inv(events) && Run(events + [event]).document.phase.Requested?
    ensures exists h: nat :: HandedOverSince(events + [event], h)
  {
    RunSnoc(events, event);
    Changes(Run(events), event);
    CommitsSnoc(events, event);
    hide Run, Next, Moves, InPageSince;
    if Moves(Run(events), event) {
      hide MovesAt;
      assert HandedOverSince(events + [event], |events|);
    } else {
      hide HandedOverSince;
      var h: nat :| HandedOverSince(events, h);
      HandedSnoc(events, event, h);
    }
  }

  lemma StillReady(events: seq<Event>, event: Event)
    requires Inv(events) && Run(events + [event]).document.phase.Ready?
    ensures var more := events + [event]; (exists i: nat, j: nat :: Settled(more, i, j)) || exists h: nat :: Restored(more, h)
  {
    var t, d := Run(events), Run(events).document;
    RunSnoc(events, event);
    Changes(t, event);
    hide Run, Next, Moves, ReadyCommit, FreshCommit, HandedOverSince, InPageSince, StillSince;
    if d.phase.Ready? {
      if i: nat, j: nat :| Settled(events, i, j) {
        ReadySnoc(events, event, i, j);
        StillSnoc(events, event, j);
        assert Settled(events + [event], i, j);
      } else {
        var h: nat :| Restored(events, h);
        HandedSnoc(events, event, h);
        assert Restored(events + [event], h);
      }
    } else if event.DomReady? {
      var i: nat :| FreshCommit(events, i);
      ReadyBegins(events, i);
      LastIsStill(events, event);
      assert Settled(events + [event], i, |events|);
    } else {
      var h: nat :| HandedOverSince(events, h);
      HandedSnoc(events, event, h);
      assert Restored(events + [event], h);
    }
  }

  lemma LastIsStill(events: seq<Event>, event: Event)
    ensures StillSince(events + [event], |events|)
  {}

  lemma {:induction false} InvHolds(events: seq<Event>)
    ensures Inv(events)
  {
    if events != [] {
      InvHolds(events[..|events| - 1]);
      InvStep(events[..|events| - 1], events[|events| - 1]);
      assert events[..|events| - 1] + [events[|events| - 1]] == events;
    }
  }

  /** What ready means, whatever the order of events: the dom-ready of the last commit has come,
      with nothing moving in between. And since then either nothing has moved; or the last that
      moved was a hand-over and an in-page navigation of the main frame came after it; or what
      moved is shown as interrupted, and the document it left was ready and without error. */
  lemma ReadyMeans(events: seq<Event>)
    requires ShowsReady(Run(events).document)
    ensures exists i: nat, j: nat :: ReadyCommit(events, i, j)
    ensures var d := Run(events).document; !Uncommitted(d.phase) ==> d.phase.Ready? && d.error.None?
    ensures !Uncommitted(Run(events).document.phase) ==>
      (exists i: nat, j: nat :: Settled(events, i, j)) || exists h: nat :: Restored(events, h)
    ensures Uncommitted(Run(events).document.phase) ==> exists m: nat, n: nat :: LeftReady(events, m, n)
  {
    InvHolds(events);
    var d := Run(events).document;
    hide Settled, Restored, ReadyCommit, HandedOverSince;
    if Uncommitted(d.phase) {
      var m: nat :| LeftAt(events, m, d);
      var n :| m < n < |events| && Interrupts(events[n]);
      assert LeftReady(events, m, n);
    }
  }

  /** A ready document without error was left at `m`, nothing was committed since, and at `n` came
      an interruption. */
  ghost predicate LeftReady(events: seq<Event>, m: nat, n: nat) {
    && m < n < |events| && MovesAt(events, m) && Interrupts(events[n])
    && At(events, m).document.phase.Ready? && At(events, m).document.error.None?
    && forall k :: m < k <= |events| ==> Uncommitted(At(events, k).document.phase)
  }

  // ----- Ready while a navigation is under way -----

  /** A navigation that starts leaves the tab ready in one case only: its address was handed over
      and that had been interrupted before. */
  lemma StartLeavesReadyIff(events: seq<Event>)
    requires !Run(events).closed
    ensures var t := Run(events);
      ShowsReady(Run(events + [Started(true, false)]).document) <==> t.document.phase.Requested? && ShowsReady(t.document)
  {
    RunSnoc(events, Started(true, false));
  }

  /** What is reported about a navigation. */
  predicate Reports(event: Event) { event.Stopped? || event.Rejected? || event.Fail? || event.DidFailLoad? }

  /** The exact condition: with a navigation under way, of which nothing has been reported yet, the
      tab is ready if and only if the address had been handed over and interrupted, for a ready
      document left, before that navigation started. */
  lemma {:induction false} UnderWayReadyIff(events: seq<Event>, s: nat)
    requires StartingSince(events, s) && forall n :: s < n < |events| ==> !Reports(events[n])
    ensures var before := At(events, s).document;
      ShowsReady(Run(events).document) <==> before.phase.Requested? && ShowsReady(before)
  {
    var k := |events| - 1;
    var init := events[..k];
    assert events == init + [events[k]];
    if s == k {
      StartLeavesReadyIff(init);
    } else {
      StartingSnoc(init, events[k], s);
      UnderWayReadyIff(init, s);
      assert init[..s] == events[..s];
      LoadingIff(init);
      assert !Reports(events[k]);
      NothingReported(Run(init), events[k]);
    }
  }

  /** The exact condition for an address that has been handed over and whose navigation has not
      started: with nothing reported since, the tab is ready if and only if it was right after the
      hand-over, being interrupted then, or an in-page navigation of the main frame came and the
      document left was ready and without error. Whose page that navigation was in is not asked. */
  lemma {:induction false} HandedOverReadyIff(events: seq<Event>, h: nat)
    requires HandedOverSince(events, h) && forall n :: h < n < |events| ==> !Reports(events[n])
    ensures var handed := At(events, h + 1).document;
      ShowsReady(Run(events).document) <==>
        ShowsReady(handed) || (handed.retained == Some(Retained(true, None)) && InPageSince(events, h))
  {
    InvHolds(events[..h + 1]);
    HandedOverIs(events, h);
    HandedOverStays(events, h);
    hide Run, HandedOverSince, InPageSince;
  }

  lemma HandedOverIs(events: seq<Event>, h: nat)
    requires HandedOverSince(events, h)
    ensures var d := At(events, h + 1).document; d.phase.Requested?
  {
    assert events[..h + 1] == events[..h] + [events[h]];
    RunSnoc(events[..h], events[h]);
  }

  /** The document is the one handed over, or that restored. */
  lemma {:induction false} HandedOverStays(events: seq<Event>, h: nat)
    requires HandedOverSince(events, h) && forall n :: h < n < |events| ==> !Reports(events[n])
    ensures var handed, now := At(events, h + 1).document, Run(events).document;
      if handed.retained.Some? && handed.retained.value.ready && InPageSince(events, h)
      then now.phase.Ready? && now.retained.None? && now.error == handed.retained.value.error
      else now == handed
  {
    var k := |events| - 1;
    var init := events[..k];
    assert events == init + [events[k]];
    if h == k {
      assert events[..h + 1] == events;
    } else {
      HandedInit(init, events[k], h);
      HandedOverStays(init, h);
      HandedSnoc(init, events[k], h);
      RunSnoc(init, events[k]);
      assert init[..h + 1] == events[..h + 1];
      HandedOverIs(init, h);
      assert !Reports(events[k]);
      HandedStep(Run(init), events[k]);
      hide Run, Next, Moves, InPageSince, HandedOverSince, At;
    }
  }

  lemma HandedStep(t: Tab, event: Event)
    requires !Moves(t, event) && !Reports(event)
    ensures var d, after := t.document, Next(t, event).document;
      && (d.phase.Ready? ==> after == d)
      && (d.phase.Requested? ==>
            if event == InPage(true) && !t.closed && d.retained.Some? && d.retained.value.ready
            then after.phase.Ready? && after.retained.None? && after.error == d.retained.value.error
            else after == d)
  {}

  lemma HandedInit(events: seq<Event>, event: Event, h: nat)
    requires HandedOverSince(events + [event], h) && h < |events|
    ensures HandedOverSince(events, h) && !Moves(Run(events), event)
  {
    hide Run, Moves, CommitsAt, MovesAt;
    CommitsSnoc(events, event);
    var more := events + [event];
    assert MovesAt(more, h) && more[h] == events[h];
    assert forall m :: h < m < |more| ==> !MovesAt(more, m);
    assert !MovesAt(more, |events|);
  }

  /** After a request that has not handed anything over yet the tab is never ready. */
  lemma {:induction false} BegunIsNotReady(events: seq<Event>, b: nat)
    requires b < |events| && events[b].Begin? && StillSince(events, b)
    requires forall n :: b < n < |events| ==> !Reports(events[n])
    ensures var d := Run(events).document; d.phase.Preparing? && d.error.None? && !ShowsReady(d)
  {
    var k := |events| - 1;
    var init := events[..k];
    assert events == init + [events[k]];
    RunSnoc(init, events[k]);
    if b < k {
      StillInit(init, events[k], b);
      BegunIsNotReady(init, b);
      assert !Reports(events[k]);
      hide Run;
    }
  }

  lemma StillInit(events: seq<Event>, event: Event, j: nat)
    requires StillSince(events + [event], j) && j < |events|
    ensures StillSince(events, j) && !Moves(Run(events), event)
  {
    hide Run, Moves, CommitsAt, MovesAt;
    CommitsSnoc(events, event);
    var more := events + [event];
    assert forall m :: j < m < |more| ==> !MovesAt(more, m);
    assert !MovesAt(more, |events|);
  }

  lemma NothingReported(t: Tab, event: Event)
    requires t.document.phase.Loading? && !Moves(t, event) && !(event.DidNavigate? && !t.closed) && !Reports(event)
    ensures Next(t, event).document == t.document
  {}

  /** The interruption that a stop of the page before leaves on a request just handed over: the
      navigation that starts then is under way and the tab is ready all the same. */
  function LateStop(request: nat): seq<Event> { [Begin, HandOver(request, false), Stopped, Started(true, false)] }

  lemma ReadyTooEarly(events: seq<Event>)
    requires var t := Run(events); t.document.phase.Ready? && t.document.error.None? && !t.closed
    ensures var later := events + LateStop(Run(events).request + 1);
      ShowsReady(Run(later).document) && StartingSince(later, |later| - 1)
  {
    var r := Run(events).request + 1;
    var one, two, three := events + [Begin], events + [Begin] + [HandOver(r, false)], events + [Begin] + [HandOver(r, false)] + [Stopped];
    RunSnoc(events, Begin);
    RunSnoc(one, HandOver(r, false));
    RunSnoc(two, Stopped);
    RunSnoc(three, Started(true, false));
    assert events + LateStop(r) == three + [Started(true, false)];
    StartingSnoc(three, Started(true, false), |three|);
  }

  /** An in-page navigation of the page that is still there, between the hand-over of an address and
      the start of its navigation: from every ready tab, the request is taken for done. */
  function InPageInstead(request: nat): seq<Event> { [Begin, HandOver(request, false), InPage(true)] }

  lemma InPageRestores(t: Tab)
    requires t.document.phase.Ready? && t.document.error.None? && !t.closed
    ensures var begun := Next(t, Begin);
      var handed := Next(begun, HandOver(t.request + 1, false));
      var restored := Next(handed, InPage(true));
      && Moves(begun, HandOver(t.request + 1, false))
      && restored.document.phase.Ready? && ShowsReady(restored.document) && restored.request == t.request + 1
  {}

  lemma HandedJustNow(events: seq<Event>, event: Event)
    requires event.HandOver? && Moves(Run(events), event)
    ensures HandedOverSince(events + [event], |events|)
  {
    CommitsSnoc(events, event);
    LastIsStill(events, event);
    hide Run, Moves, MovesAt, StillSince, CommitsAt;
  }

  lemma InPageIsStill(t: Tab)
    ensures !Moves(t, InPage(true))
  {}

  lemma ReadyWithoutNavigation(events: seq<Event>)
    requires var t := Run(events); t.document.phase.Ready? && t.document.error.None? && !t.closed
    ensures var later := events + InPageInstead(Run(events).request + 1);
      && ShowsReady(Run(later).document) && Run(later).document.phase.Ready?
      && Run(later).request == Run(events).request + 1
      && HandedOverSince(later, |events| + 1)
  {
    var r := Run(events).request + 1;
    var one, two := events + [Begin], events + [Begin] + [HandOver(r, false)];
    assert events + InPageInstead(r) == two + [InPage(true)];
    InPageRestores(Run(events));
    RunSnoc(events, Begin);
    RunSnoc(one, HandOver(r, false));
    RunSnoc(two, InPage(true));
    hide *;
    HandedJustNow(one, HandOver(r, false));
    InPageIsStill(Run(two));
    HandedSnoc(two, InPage(true), |one|);
  }

  /** And the page that comes never shows as ready: what is committed with an error stays unready
      until something moves. */
  lemma CommittedWithError(events: seq<Event>, more: seq<Event>)
    requires var d := Run(events).document; d.phase.Committed? && d.error.Some?
    requires forall k :: |events| <= k < |events + more| ==> !MovesAt(events + more, k)
    ensures var d := Run(events + more).document; d.phase.Committed? && d.error.Some? && !ShowsReady(d)
  {
    InvHolds(events);
    CommittedStays(events, more);
  }

  predicate Failed(d: Document) { d.phase.Committed? && d.error.Some? && d.retained.None? }

  lemma {:induction false} CommittedStays(events: seq<Event>, more: seq<Event>)
    requires Failed(Run(events).document)
    requires forall k :: |events| <= k < |events + more| ==> !MovesAt(events + more, k)
    ensures Failed(Run(events + more).document)
  {
    if more == [] {
      assert events + more == events;
    } else {
      var init, event := more[..|more| - 1], more[|more| - 1];
      var before := events + init;
      assert events + more == before + [event];
      LastMoves(before, event);
      hide Run, Moves, Failed, At;
      forall k | |events| <= k < |before| ensures !MovesAt(before, k) {
        MovesKept(before, event, k);
        assert !MovesAt(events + more, k);
      }
      hide MovesAt;
      CommittedStays(events, init);
      RunSnoc(before, event);
      assert !MovesAt(events + more, |before|);
      FailedStep(Run(before), event);
    }
  }

  lemma FailedStep(t: Tab, event: Event)
    requires Failed(t.document) && !Moves(t, event)
    ensures Failed(Next(t, event).document)
  {}

  /** A new document is told apart from every earlier one. */
  lemma {:induction false} DocumentsNumbered(events: seq<Event>)
    ensures Run(events).document.id < Run(events).documents
  {
    if events != [] {
      DocumentsNumbered(events[..|events| - 1]);
    }
  }

  // ----- The class -----

  class BrowserNavigation {
    var request: nat
    var closed: bool
    var document: Document
    var documents: nat
    // Everything that has come, in order:
    ghost var log: seq<Event>

    constructor ()
      ensures Valid() && !closed && document == Document(0, Preparing, None, None) && request == 0 && log == []
    {
      request, closed, document, documents := 0, false, Document(0, Preparing, None, None), 1;
      log := [];
    }

    /** The fields are those of the machine after the events so far. */
    ghost predicate Valid()
      reads this
    {
      Tab(request, closed, document, documents) == Run(log)
    }

    function Error(): Option<Failure>
      reads this
    {
      ErrorOf(document)
    }

    predicate IsReady()
      reads this
    {
      ShowsReady(document)
    }

    /** A navigation is under way and has neither been committed nor failed. */
    predicate InProgress()
      reads this
    {
      Uncommitted(document.phase) && document.error.None?
    }

    method NewDocument(phase: Phase)
      modifies this`document, this`documents
      ensures Tab(request, closed, document, documents) == Renewed(old(Tab(request, closed, document, documents)), phase)
      ensures document.id == old(documents) && document.phase == phase && document.error.None?
      ensures document.retained == if Uncommitted(old(document.phase)) then old(document.retained)
                                   else Some(Retained(old(document.phase).Ready?, old(document.error)))
    {
      var retained := if Uncommitted(document.phase) then document.retained
                      else Some(Retained(document.phase.Ready?, document.error));
      document := Document(documents, phase, None, retained);
      documents := documents + 1;
    }

    /** Every earlier request is superseded from here on. */
    method Begin() returns (r: nat)
      requires Valid()
      modifies this
      ensures Valid() && log == old(log) + [Event.Begin] && r == request == old(request) + 1 && unchanged(`closed)
      ensures document.phase.Preparing? && document.id == old(documents) && InProgress()
    {
      RunSnoc(log, Event.Begin);
      log := log + [Event.Begin];
      NewDocument(Preparing);
      request := request + 1;
      r := request;
    }

    method Fail(r: nat, error: Failure)
      requires Valid()
      modifies this`document, this`log
      ensures Valid() && log == old(log) + [Event.Fail(r, error)]
      ensures document == if !closed && r == request then old(document).(error := Some(error)) else old(document)
    {
      RunSnoc(log, Event.Fail(r, error));
      log := log + [Event.Fail(r, error)];
      if !closed && r == request {
        document := document.(error := Some(error));
      }
    }

    /** The start of `load`: checks the request and hands the address to the guest. */
    method BeginLoad(r: nat, destroyed: bool) returns (started: Option<Load>)
      requires Valid()
      modifies this`document, this`log
      ensures Valid() && log == old(log) + [HandOver(r, destroyed)]
      ensures started == if closed || destroyed || r != request then None else Some(Load(r, document.id))
      ensures document == if started.None? then old(document) else old(document).(phase := Requested)
    {
      RunSnoc(log, HandOver(r, destroyed));
      log := log + [HandOver(r, destroyed)];
      if closed || destroyed || r != request { return None; }
      document := document.(phase := Requested);
      started := Some(Load(r, document.id));
    }

    /** `loadURL` rejects, possibly long after. */
    method LoadRejected(load: Load, error: LoadError)
      requires Valid()
      modifies this`document, this`log
      ensures Valid() && log == old(log) + [Rejected(load, error)]
      ensures load.request != request || load.document != document.id || closed ==> document == old(document)
      ensures old(document).error.Some? ==> document == old(document)
      ensures document != old(document) ==>
        document == old(document).(error := Some(if error.Aborted? then Interrupted else Other(error.message)))
      ensures error.Aborted? && old(document).phase.Ready? ==> document == old(document)
    {
      RunSnoc(log, Rejected(load, error));
      log := log + [Rejected(load, error)];
      if closed || load.request != request || load.document != document.id || document.error.Some? { return; }
      match error {
        case Aborted =>
          if document.phase.Ready? { return; }
          document := document.(error := Some(Interrupted));
        case _ => document := document.(error := Some(Other(error.message)));
      }
    }

    /** `did-start-navigation`; one nobody asked for supersedes a request still being prepared. */
    method Started(mainFrame: bool, sameDocument: bool)
      requires Valid() && !closed
      modifies this
      ensures Valid() && log == old(log) + [Event.Started(mainFrame, sameDocument)] && unchanged(`closed)
      ensures !mainFrame || sameDocument ==> document == old(document) && request == old(request)
      ensures mainFrame && !sameDocument ==>
        && document.phase.Loading?
        && request == old(request) + (if old(document.phase).Preparing? then 1 else 0)
        && (document.id == old(document.id) <==> old(document.phase).Requested?)
    {
      DocumentsNumbered(log);
      RunSnoc(log, Event.Started(mainFrame, sameDocument));
      log := log + [Event.Started(mainFrame, sameDocument)];
      if !mainFrame || sameDocument { return; }
      if document.phase.Preparing? { request := request + 1; }
      if !document.phase.Requested? { NewDocument(Loading); }
      else { document := document.(phase := Loading); }
    }

    method DidNavigate()
      requires Valid() && !closed
      modifies this`document, this`log
      ensures Valid() && log == old(log) + [Event.DidNavigate]
      ensures document == if old(document.phase).Loading? then old(document).(phase := Committed, retained := None) else old(document)
    {
      RunSnoc(log, Event.DidNavigate);
      log := log + [Event.DidNavigate];
      if !document.phase.Loading? { return; }
      document := document.(phase := Committed, retained := None);
    }

    method DomReady()
      requires Valid() && !closed
      modifies this`document, this`log
      ensures Valid() && log == old(log) + [Event.DomReady]
      ensures document == if old(document.phase).Committed? && old(document.error).None? then old(document).(phase := Ready) else old(document)
    {
      RunSnoc(log, Event.DomReady);
      log := log + [Event.DomReady];
      if document.phase.Committed? && document.error.None? {
        document := document.(phase := Ready);
      }
    }

    /** `did-navigate-in-page`: the requested address was in the document that is still there. */
    method InPage(mainFrame: bool)
      requires Valid() && !closed
      modifies this`document, this`documents, this`log
      ensures Valid() && log == old(log) + [Event.InPage(mainFrame)]
      ensures var restores := mainFrame && old(document.phase).Requested? && old(document.retained).Some? && old(document.retained.value.ready);
        document == if restores then Document(old(documents), Ready, old(document.retained.value.error), None) else old(document)
    {
      RunSnoc(log, Event.InPage(mainFrame));
      log := log + [Event.InPage(mainFrame)];
      if mainFrame && document.phase.Requested? && document.retained.Some? && document.retained.value.ready {
        document := Document(documents, Ready, document.retained.value.error, None);
        documents := documents + 1;
      }
    }

    method DidFailLoad(aborted: bool, message: string, mainFrame: bool)
      requires Valid() && !closed
      modifies this`document, this`log
      ensures Valid() && log == old(log) + [Event.DidFailLoad(aborted, message, mainFrame)]
      ensures document == if mainFrame && !aborted then old(document).(error := Some(Other(message))) else old(document)
    {
      RunSnoc(log, Event.DidFailLoad(aborted, message, mainFrame));
      log := log + [Event.DidFailLoad(aborted, message, mainFrame)];
      if mainFrame && !aborted {
        document := document.(error := Some(Other(message)));
      }
    }

    /** `did-stop-loading`: what has not been committed by now has been interrupted. */
    method Stopped()
      requires Valid() && !closed
      modifies this`document, this`log
      ensures Valid() && log == old(log) + [Event.Stopped]
      ensures document == if (old(document.phase).Requested? || old(document.phase).Loading?) && old(document.error).None?
                          then old(document).(error := Some(Interrupted)) else old(document)
      ensures InProgress() ==> document.phase.Preparing?
    {
      RunSnoc(log, Event.Stopped);
      log := log + [Event.Stopped];
      if (document.phase.Requested? || document.phase.Loading?) && document.error.None? {
        document := document.(error := Some(Interrupted));
      }
    }

    method Close()
      requires Valid()
      modifies this`closed, this`log
      ensures Valid() && log == old(log) + [Event.Close] && closed
    {
      RunSnoc(log, Event.Close);
      log := log + [Event.Close];
      closed := true;
    }

    /** One turn of `wait`, for a given request or for whatever the tab shows. */
    method Check(r: Option<nat>, destroyed: bool) returns (poll: Poll)
      requires Valid()
      ensures poll == Done ==> IsReady() && (r.Some? ==> r.value == request)
      ensures poll == Done ==> exists i: nat, j: nat :: ReadyCommit(log, i, j)
      ensures poll == Done && r.Some? ==> document.phase.Ready? && document.error.None?
      ensures poll == Done && r.Some? ==> (exists i: nat, j: nat :: Settled(log, i, j)) || exists h: nat :: Restored(log, h)
      ensures poll == Done && r.None? && Uncommitted(document.phase) ==> exists m: nat, n: nat :: LeftReady(log, m, n)
      ensures poll == Closed <==> closed || destroyed
      ensures poll == Superseded <==> !closed && !destroyed && r.Some? && r.value != request
      ensures poll.Failed? ==> Some(poll.error) == if r.None? then Error() else document.error
      ensures poll == Again ==> Error().None? && !IsReady()
    {
      if closed || destroyed { return Closed; }
      if r.Some? && r.value != request { return Superseded; }
      var error := if r.None? then Error() else document.error;
      if error.Some? { return Failed(error.value); }
      if IsReady() { ReadyMeans(log); }
      return if IsReady() then Done else Again;
    }
  }
}
