/** Session navigation: one cold load at a time, and only the latest click is committed.
    Requests are numbered in the order they are issued; each method is one stretch of
    `resume` between two awaits. */
module Navigation {
  import opened Options

  datatype Outcome = Committed | Superseded | Failed

  /** Where a request stands; preparations are numbered in the order they are started. */
  datatype Progress =
    | Waiting(preparation: nat)
    | Preparing(preparation: nat)
    | Snapshotting
    | Ended(outcome: Outcome)

  /** The commits are the requests that ended so, in the order they were issued, and no
      request is superseded but by a later one. */
  ghost predicate CommitLog(commits: seq<nat>, requests: seq<Progress>) {
    && (forall i, j :: 0 <= i < j < |commits| ==> commits[i] < commits[j])
    && (forall r <- commits :: r < |requests| && requests[r] == Ended(Committed))
    && (forall r :: 0 <= r < |requests| && requests[r] == Ended(Committed) ==> r in commits)
    && (forall r :: 0 <= r < |requests| && requests[r] == Ended(Superseded) ==> r + 1 < |requests|)
  }

  lemma CommitLatest(commits: seq<nat>, requests: seq<Progress>)
    requires CommitLog(commits, requests) && requests != [] && !requests[|requests| - 1].Ended?
    ensures var r := |requests| - 1; CommitLog(commits + [r], requests[r := Ended(Committed)])
  {
    var r := |requests| - 1;
    var after := commits + [r];
    forall i, j | 0 <= i < j < |after| ensures after[i] < after[j] {
      assert commits[i] in commits;
    }
  }

  lemma EndWithoutCommit(commits: seq<nat>, requests: seq<Progress>, r: nat, outcome: Outcome)
    requires CommitLog(commits, requests) && r < |requests| && !requests[r].Ended? && !outcome.Committed?
    requires outcome.Superseded? ==> r + 1 < |requests|
    ensures CommitLog(commits, requests[r := Ended(outcome)])
  {}

  lemma GoOnWithoutCommit(commits: seq<nat>, requests: seq<Progress>, r: nat, stop: Progress)
    requires CommitLog(commits, requests) && r < |requests| && !requests[r].Ended? && !stop.Ended?
    ensures CommitLog(commits, requests[r := stop])
  {}

  lemma IssueWithoutCommit(commits: seq<nat>, requests: seq<Progress>, stop: Progress)
    requires CommitLog(commits, requests) && !stop.Ended?
    ensures CommitLog(commits, requests + [stop])
  {}

  /** At most one preparation runs, `preparing` names it, and one request is awaiting it. */
  ghost predicate SinglePreparation(preparing: Option<nat>, requests: seq<Progress>, preparations: seq<Option<bool>>) {
    && (preparing.Some? ==> preparing.value < |preparations|)
    && (preparing.Some? ==> exists r :: 0 <= r < |requests| && requests[r] == Preparing(preparing.value))
    && (forall r :: 0 <= r < |requests| && requests[r].Preparing? ==> preparing == Some(requests[r].preparation))
    && (forall r, s :: 0 <= r < s < |requests| && requests[r].Preparing? ==> !requests[s].Preparing?)
    && (forall p :: 0 <= p < |preparations| && preparations[p].None? ==> preparing == Some(p))
  }

  lemma OthersKeepPreparation(preparing: Option<nat>, requests: seq<Progress>, preparations: seq<Option<bool>>, r: nat, stop: Progress)
    requires SinglePreparation(preparing, requests, preparations)
    requires r < |requests| && !requests[r].Preparing? && !stop.Preparing?
    ensures SinglePreparation(preparing, requests[r := stop], preparations)
  {
    if preparing.Some? {
      var s :| 0 <= s < |requests| && requests[s] == Preparing(preparing.value);
      assert requests[r := stop][s] == Preparing(preparing.value);
    }
  }

  lemma IssueKeepsPreparation(preparing: Option<nat>, requests: seq<Progress>, preparations: seq<Option<bool>>, stop: Progress)
    requires SinglePreparation(preparing, requests, preparations) && !stop.Preparing?
    ensures SinglePreparation(preparing, requests + [stop], preparations)
  {
    if preparing.Some? {
      var s :| 0 <= s < |requests| && requests[s] == Preparing(preparing.value);
      assert (requests + [stop])[s] == Preparing(preparing.value);
    }
  }

  lemma PreparationStarts(requests: seq<Progress>, preparations: seq<Option<bool>>, r: nat)
    requires SinglePreparation(None, requests, preparations) && r < |requests|
    ensures SinglePreparation(Some(|preparations|), requests[r := Preparing(|preparations|)], preparations + [None])
  {
    assert requests[r := Preparing(|preparations|)][r] == Preparing(|preparations|);
  }

  lemma PreparationEnds(requests: seq<Progress>, preparations: seq<Option<bool>>, r: nat, stop: Progress)
    requires r < |requests| && requests[r].Preparing? && !stop.Preparing?
    requires SinglePreparation(Some(requests[r].preparation), requests, preparations)
    requires preparations[requests[r].preparation].Some?
    ensures SinglePreparation(None, requests[r := stop], preparations)
  {}

  class SessionNavigation {
    var current: Option<nat>
    var preparing: Option<nat>
    var requests: seq<Progress>
    // Whether and how each preparation has settled:
    var preparations: seq<Option<bool>>
    var commits: seq<nat>
    // How many requests had been issued when each commit happened:
    ghost var issuedAtCommit: seq<nat>

    constructor ()
      ensures Valid() && requests == [] && commits == [] && current.None?
    {
      current, preparing, requests, preparations, commits := None, None, [], [], [];
      issuedAtCommit := [];
    }

    ghost predicate Valid()
      reads this
    {
      OneTarget() && OnePreparation() && Commits() && LatestCommits() && Waiters()
    }

    /** The target is the latest request, and is given up exactly when that has ended. */
    ghost predicate OneTarget()
      reads this
    {
      && (current.Some? ==> current.value + 1 == |requests| && !requests[current.value].Ended?)
      && (current.None? && requests != [] ==> requests[|requests| - 1].Ended? && !requests[|requests| - 1].outcome.Superseded?)
    }

    ghost predicate OnePreparation()
      reads this
    {
      SinglePreparation(preparing, requests, preparations)
    }

    ghost predicate Commits()
      reads this
    {
      CommitLog(commits, requests)
    }

    /** Each commit was that of the latest request there was. */
    ghost predicate LatestCommits()
      reads this
    {
      |issuedAtCommit| == |commits| && forall i :: 0 <= i < |commits| ==> issuedAtCommit[i] == commits[i] + 1
    }

    /** Whoever waits, waits for a preparation that someone will see through. */
    ghost predicate Waiters()
      reads this
    {
      forall r :: 0 <= r < |requests| && requests[r].Waiting? ==> requests[r].preparation < |preparations|
    }

    /** A new click. */
    method Resume(found: bool) returns (request: nat)
      requires Valid()
      modifies this`current, this`preparing, this`requests, this`preparations
      ensures Valid() && request == |old(requests)|
      ensures requests == old(requests) + [
        if found then Snapshotting
        else if old(preparing).Some? then Waiting(old(preparing).value) else Preparing(|old(preparations)|)]
      ensures current == Some(request)
      ensures preparations == old(preparations) + if requests[request].Preparing? then [None] else []
      ensures preparing == if requests[request].Preparing? then Some(|old(preparations)|) else old(preparing)
    {
      hide CommitLog, SinglePreparation;
      request := |requests|;
      var stop := NextStop(found, preparing, |preparations|);
      IssueWithoutCommit(commits, requests, stop);
      IssueKeepsPreparation(preparing, requests, preparations, Snapshotting);
      Known();
      requests := requests + [Snapshotting];
      current := Some(request);
      Rest(request, stop);
      assert requests == old(requests) + [stop];
    }

    /** A request comes to rest at its next stop, and starts the preparation it is to await. */
    method Rest(request: nat, stop: Progress)
      requires OnePreparation() && request < |requests| && !requests[request].Preparing?
      requires stop.Preparing? ==> preparing.None? && stop.preparation == |preparations|
      modifies this`preparing, this`requests, this`preparations
      ensures OnePreparation() && requests == old(requests)[request := stop]
      ensures preparations == old(preparations) + if stop.Preparing? then [None] else []
      ensures preparing == if stop.Preparing? then Some(stop.preparation) else old(preparing)
    {
      hide SinglePreparation;
      if stop.Preparing? {
        PreparationStarts(requests, preparations, request);
        preparing := Some(stop.preparation);
        preparations := preparations + [None];
      } else {
        OthersKeepPreparation(preparing, requests, preparations, request, stop);
      }
      requests := requests[request := stop];
    }

    /** Where the loop comes to rest while the request is the target. */
    static function NextStop(found: bool, preparing: Option<nat>, started: nat): Progress {
      if found then Snapshotting
      else if preparing.Some? then Waiting(preparing.value)
      else Preparing(started)
    }

    /** The promise of a preparation settles. */
    method Settle(preparation: nat, ok: bool)
      requires Valid() && preparation < |preparations| && preparations[preparation].None?
      modifies this`preparations
      ensures Valid() && preparations == old(preparations)[preparation := Some(ok)]
    {
      preparations := preparations[preparation := Some(ok)];
    }

    /** The request awaiting its own preparation goes on; a failed one ends it. */
    method Prepared(request: nat, found: bool)
      requires Valid() && request < |requests| && requests[request].Preparing?
      requires preparations[requests[request].preparation].Some?
      modifies this`current, this`preparing, this`requests, this`preparations
      ensures Valid()
      ensures var ok := old(preparations[requests[request].preparation].value);
        && requests == old(requests)[request :=
             if !ok then Ended(Failed)
             else if old(current) != Some(request) then Ended(Superseded)
             else if found then Snapshotting else Preparing(|old(preparations)|)]
        && current == if !ok && old(current) == Some(request) then None else old(current)
      ensures preparing == if requests[request].Preparing? then Some(|old(preparations)|) else None
      ensures preparations == old(preparations) + if requests[request].Preparing? then [None] else []
    {
      hide CommitLog, SinglePreparation;
      Known();
      Awaited(request);
      var ok := preparations[requests[request].preparation].value;
      if ok && current == Some(request) {
        var stop := NextStop(found, None, |preparations|);
        GoOnWithoutCommit(commits, requests, request, stop);
        PreparationEnds(requests, preparations, request, Snapshotting);
        preparing := None;
        requests := requests[request := Snapshotting];
        Rest(request, stop);
        assert requests == old(requests)[request := stop];
      } else {
        var outcome := if ok then Superseded else Failed;
        Superseding(request);
        EndWithoutCommit(commits, requests, request, outcome);
        PreparationEnds(requests, preparations, request, Ended(outcome));
        preparing := None;
        requests := requests[request := Ended(outcome)];
        if current == Some(request) { current := None; }
      }
    }

    lemma Known()
      requires OnePreparation()
      ensures preparing.Some? ==> preparing.value < |preparations|
    {}

    /** The preparation a request awaits is the one that runs. */
    lemma Awaited(request: nat)
      requires OnePreparation() && request < |requests| && requests[request].Preparing?
      ensures preparing == Some(requests[request].preparation)
    {}

    /** A request that is no longer the target has a later one behind it. */
    lemma Superseding(request: nat)
      requires OneTarget() && request < |requests| && !requests[request].Ended?
      ensures current != Some(request) ==> request + 1 < |requests|
    {}

    /** A waiting request is woken by the preparation it waits for. */
    method Wake(request: nat, found: bool)
      requires Valid() && request < |requests| && requests[request].Waiting?
      requires preparations[requests[request].preparation].Some?
      modifies this`preparing, this`preparations, this`requests
      ensures Valid()
      ensures requests == old(requests)[request :=
        if current != Some(request) then Ended(Superseded)
        else if found then Snapshotting
        else if old(preparing).Some? then Waiting(old(preparing).value) else Preparing(|old(preparations)|)]
      ensures preparations == old(preparations) + if requests[request].Preparing? then [None] else []
      ensures preparing == if requests[request].Preparing? then Some(|old(preparations)|) else old(preparing)
    {
      hide CommitLog, SinglePreparation;
      Known();
      var stop := if current == Some(request) then NextStop(found, preparing, |preparations|) else Ended(Superseded);
      if stop.Ended? {
        Superseding(request);
        EndWithoutCommit(commits, requests, request, Superseded);
      } else {
        GoOnWithoutCommit(commits, requests, request, stop);
      }
      Rest(request, stop);
    }

    /** The snapshot has been taken or has failed; a commit follows without a break. */
    method Snapshot(request: nat, ok: bool)
      requires Valid() && request < |requests| && requests[request].Snapshotting?
      modifies this`current, this`requests, this`commits, this`issuedAtCommit
      ensures Valid()
      ensures commits != old(commits) ==> request + 1 == |requests|
      ensures requests == old(requests)[request :=
        Ended(if !ok then Failed else if old(current) == Some(request) then Committed else Superseded)]
      ensures commits == if ok && old(current) == Some(request) then old(commits) + [request] else old(commits)
      ensures current == if old(current) == Some(request) then None else old(current)
    {
      hide CommitLog, SinglePreparation;
      var outcome := if !ok then Failed else if current == Some(request) then Committed else Superseded;
      OthersKeepPreparation(preparing, requests, preparations, request, Ended(outcome));
      if outcome.Committed? {
        CommitLatest(commits, requests);
        commits := commits + [request];
        issuedAtCommit := issuedAtCommit + [|requests|];
      } else {
        Superseding(request);
        EndWithoutCommit(commits, requests, request, outcome);
      }
      requests := requests[request := Ended(outcome)];
      if current == Some(request) { current := None; }
    }

    /** Commits happen in the order of the clicks, each by the request that was then the
        latest, and never by one that has reported being superseded. */
    lemma LatestClickWins(r: nat, s: nat)
      requires Valid() && r < |requests| && s < |requests|
      ensures forall i, j :: 0 <= i < j < |commits| ==> commits[i] < commits[j]
      ensures forall i :: 0 <= i < |commits| ==> issuedAtCommit[i] == commits[i] + 1
      ensures r in commits <==> requests[r] == Ended(Committed)
      ensures requests[r] == Ended(Superseded) ==> r !in commits && r + 1 < |requests|
      ensures requests[r].Preparing? && requests[s].Preparing? ==> r == s
    {}

    /** Once every request has ended there is no target, and nothing is being prepared. */
    lemma AllEnded()
      requires Valid() && forall r :: 0 <= r < |requests| ==> requests[r].Ended?
      ensures current.None? && preparing.None?
      ensures forall p :: 0 <= p < |preparations| ==> preparations[p].Some?
    {}

    /** The target never waits in vain: while it waits for a preparation that has not settled,
        some request is awaiting that very preparation. */
    lemma WaitIsServed(request: nat)
      requires Valid() && request < |requests| && requests[request].Waiting?
      requires preparations[requests[request].preparation].None?
      ensures exists r :: 0 <= r < |requests| && requests[r] == Preparing(requests[request].preparation)
    {
      assert preparing == Some(requests[request].preparation);
    }
  }
}
