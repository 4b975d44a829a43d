/** User terminals: their table, and the output credit of one terminal. */
module Terminals {
  import opened Options

  type Id = nat

  const MAX_TERMINALS: nat := 8
  const OUTPUT_HIGH_WATER: nat := 131072
  const OUTPUT_LOW_WATER: nat := 32768

  // ----- The table -----

  /** `终端 n`, the smallest number no open terminal has. */
  method NextNumber(taken: set<nat>) returns (number: nat)
    ensures number >= 1 && number !in taken
    ensures forall n :: 1 <= n < number ==> n in taken
  {
    number := 1;
    ghost var passed: set<nat> := {};
    while number in taken
      invariant number >= 1 && passed <= taken && forall n :: n in passed <==> 1 <= n < number
      decreases taken - passed
    {
      passed := passed + {number};
      number := number + 1;
    }
  }

  /** The numbers that open terminals have. */
  function Taken(entries: map<Id, nat>): set<nat> { set e <- entries :: entries[e] }

  ghost predicate DistinctTitles(entries: map<Id, nat>) {
    forall a <- entries, b <- entries :: a != b ==> entries[a] != entries[b]
  }

  lemma Added(entries: map<Id, nat>, id: Id, number: nat)
    requires DistinctTitles(entries) && id !in entries && forall e <- entries :: entries[e] != number
    ensures DistinctTitles(entries[id := number]) && |entries[id := number]| == |entries| + 1
    ensures entries[id := number] - {id} == entries
  {}

  lemma Removed(entries: map<Id, nat>, id: Id)
    requires id in entries
    ensures |entries - {id}| + 1 == |entries|
  {
    assert (entries - {id})[id := entries[id]] == entries;
  }

  class TerminalSessions {
    /** The open terminals, starting ones included, with the numbers in their titles. */
    var entries: map<Id, nat>

    constructor ()
      ensures Valid() && entries == map[]
    {
      entries := map[];
    }

    ghost predicate Valid()
      reads this
    {
      |entries| <= MAX_TERMINALS && DistinctTitles(entries)
    }

    /** `create` up to its first await: the place is taken before the terminal is started. */
    method Reserve(id: Id) returns (ok: bool)
      requires Valid() && id !in entries
      modifies this
      ensures Valid()
      ensures ok <==> |old(entries)| < MAX_TERMINALS
      ensures !ok ==> entries == old(entries)
      ensures ok ==> entries.Keys == old(entries).Keys + {id} && entries - {id} == old(entries)
      ensures ok ==> entries[id] >= 1 && entries[id] !in Taken(old(entries)) && forall n :: 1 <= n < entries[id] ==> n in Taken(old(entries))
    {
      if |entries| >= MAX_TERMINALS { return false; }
      var number := NextNumber(Taken(entries));
      Added(entries, id, number);
      entries := entries[id := number];
      ok := true;
    }

    method CloseEntry(id: Id)
      requires Valid()
      modifies this
      ensures Valid() && entries == old(entries) - {id}
    {
      if id in entries { Removed(entries, id); }
      entries := entries - {id};
    }
  }

  // ----- One terminal's output -----

  datatype TerminalEvent = Data(length: nat) | Exit(code: int)

  function Delivered(published: seq<TerminalEvent>): nat {
    if published == [] then 0
    else Delivered(published[..|published| - 1]) + match published[|published| - 1] { case Data(n) => n case Exit(_) => 0 }
  }

  /** Credit alone, where a paused pty keeps still. */
  datatype Credit = Credit(spawned: bool, paused: bool, ready: bool, outstanding: nat)

  datatype Event = PtySpawned | Output(length: nat) | BecomeReady | Acknowledge(length: nat)

  function Next(c: Credit, event: Event): Credit {
    match event
    case PtySpawned => if c.spawned then c else c.(spawned := true, paused := true)
    case Output(n) =>
      if !c.spawned || c.paused then c
      else c.(outstanding := c.outstanding + n, paused := c.outstanding + n >= OUTPUT_HIGH_WATER)
    case BecomeReady => if c.ready then c else c.(ready := true, paused := false)
    case Acknowledge(n) =>
      if n == 0 || n > c.outstanding then c
      else c.(outstanding := c.outstanding - n,
              paused := c.paused && !(c.ready && c.outstanding > OUTPUT_LOW_WATER >= c.outstanding - n))
  }

  class TerminalEntry {
    var alive: bool              // the pty exists
    var paused: bool
    var ready: bool
    var listed: bool
    var exitCode: Option<int>
    var outstanding: nat
    var published: seq<TerminalEvent>
    ghost var spawned: bool
    ghost var acknowledged: nat
    ghost var early: bool        // ready before there was a pty, which has not been resumed since

    /** Listed at once, with no pty yet. */
    constructor ()
      ensures Valid() && !spawned && !alive && !ready && listed && published == [] && outstanding == 0
    {
      alive, paused, ready, listed := false, false, false, true;
      exitCode, outstanding, published := None, 0, [];
      spawned, acknowledged, early := false, 0, false;
    }

    /** Nothing is owed but what was delivered and not acknowledged. A terminal that could go on
        is held back only while more than the low-water mark is owed, or when the renderer was
        ready before the pty came. The exit is told once the renderer is ready, once, and last. */
    ghost predicate Valid()
      reads this
    {
      && outstanding + acknowledged == Delivered(published)
      && (!spawned ==> !alive && exitCode.None? && published == [] && !early && !paused)
      && (early ==> ready && paused)
      && (alive && ready && paused ==> outstanding > OUTPUT_LOW_WATER || early)
      && (alive ==> listed && exitCode.None?)
      && (forall i :: 0 <= i < |published| && published[i].Exit? ==> i == |published| - 1)
      && (listed && exitCode.Some? && ready ==> published != [] && published[|published| - 1] == Exit(exitCode.value))
      && (exitCode.None? || !ready ==> forall i :: 0 <= i < |published| ==> published[i].Data?)
    }

    /** What decides about pausing. */
    ghost function AsCredit(): Credit
      reads this
    {
      Credit(spawned, paused, ready, outstanding)
    }

    /** The pty has come, and is paused at once whether or not the renderer is ready. */
    method Spawn()
      requires Valid() && listed && !spawned
      modifies this`alive, this`paused, this`spawned, this`early
      ensures Valid() && alive && paused && spawned && early == ready
      ensures AsCredit() == Next(old(AsCredit()), PtySpawned)
    {
      alive, paused := true, true;
      spawned, early := true, ready;
    }

    /** Output of the pty; its subscriptions end with it. */
    method OnData(length: nat)
      requires Valid() && alive
      modifies this`outstanding, this`paused, this`published
      ensures Valid()
      ensures outstanding == old(outstanding) + length && published == old(published) + [Data(length)]
      ensures paused == (old(paused) || outstanding >= OUTPUT_HIGH_WATER)
      ensures !old(paused) ==> AsCredit() == Next(old(AsCredit()), Output(length))
    {
      outstanding := outstanding + length;
      if outstanding >= OUTPUT_HIGH_WATER { paused := true; }
      assert (published + [Data(length)])[..|published|] == published;
      published := published + [Data(length)];
    }

    method OnExit(code: int)
      requires Valid() && alive
      modifies this`alive, this`exitCode, this`published
      ensures Valid() && !alive && exitCode == Some(code)
      ensures published == if ready then old(published) + [Exit(code)] else old(published)
    {
      exitCode := Some(code);
      alive := false;
      if ready {
        assert (published + [Exit(code)])[..|published|] == published;
        published := published + [Exit(code)];
      }
    }

    method Ready()
      requires Valid() && listed
      modifies this`ready, this`paused, this`published
      ensures Valid() && ready
      ensures published == if !old(ready) && exitCode.Some? then old(published) + [Exit(exitCode.value)] else old(published)
      ensures paused == (old(paused) && (old(ready) || !alive))
      ensures alive || !spawned ==> AsCredit() == Next(old(AsCredit()), BecomeReady)
    {
      if ready { return; }
      ready := true;
      if exitCode.Some? {
        assert (published + [Exit(exitCode.value)])[..|published|] == published;
        published := published + [Exit(exitCode.value)];
      } else if alive {
        paused := false;
      }
    }

    /** An acknowledgement of nothing, or of more than is owed, is ignored. */
    method Ack(length: int)
      requires Valid() && listed
      modifies this`outstanding, this`paused, this`acknowledged, this`early
      ensures Valid()
      ensures outstanding == if 0 < length <= old(outstanding) then old(outstanding) - length else old(outstanding)
      ensures var resumed := alive && ready && old(outstanding) > OUTPUT_LOW_WATER >= outstanding;
        paused == (old(paused) && !resumed) && early == (old(early) && !resumed)
      ensures (alive || !spawned) && length >= 0 ==> AsCredit() == Next(old(AsCredit()), Acknowledge(length))
    {
      if length <= 0 || length > outstanding { return; }
      var previous := outstanding;
      outstanding := outstanding - length;
      acknowledged := acknowledged + length;
      if ready && previous > OUTPUT_LOW_WATER && outstanding <= OUTPUT_LOW_WATER && alive {
        paused := false;
        early := false;
      }
    }

    method Close()
      requires Valid()
      modifies this`alive, this`listed
      ensures Valid() && !alive && !listed
    {
      alive, listed := false, false;
    }

    /** A terminal whose renderer is ready and has acknowledged everything is held back exactly
        when that renderer was ready before the pty came and nothing has resumed it since. */
    lemma NeverStuck()
      requires Valid() && alive && ready && acknowledged == Delivered(published)
      ensures paused <==> early
    {}
  }

  // ----- How much can be owed -----

  function RunFrom(c: Credit, events: seq<Event>): Credit {
    if events == [] then c else Next(RunFrom(c, events[..|events| - 1]), events[|events| - 1])
  }

  function Run(events: seq<Event>): Credit { RunFrom(Credit(false, false, false, 0), events) }

  /** The renderer was ready before the pty came. */
  ghost predicate ReadyFirst(events: seq<Event>) {
    exists j :: 0 <= j < |events| && events[j] == PtySpawned && PtySpawned !in events[..j] && BecomeReady in events[..j]
  }

  lemma ReadyFirstSnoc(events: seq<Event>, event: Event)
    ensures ReadyFirst(events + [event])
      <==> ReadyFirst(events) || (event == PtySpawned && PtySpawned !in events && BecomeReady in events)
  {
    var more := events + [event];
    forall j | 0 <= j <= |events| ensures more[..j] == events[..j] {}
    assert events[..|events|] == events;
    if ReadyFirst(events) {
      var j :| 0 <= j < |events| && events[j] == PtySpawned && PtySpawned !in events[..j] && BecomeReady in events[..j];
      assert more[j] == PtySpawned;
    }
    if event == PtySpawned && PtySpawned !in events && BecomeReady in events {
      assert more[|events|] == PtySpawned;
    }
  }

  /** Spawned, and held back with nothing owed. */
  predicate Stuck(c: Credit) { c.spawned && c.ready && c.paused && c.outstanding == 0 }

  /** With chunks of at most `chunk` never more than the high-water mark and one chunk is owed;
      before the renderer is ready, nothing. A ready renderer waits for no more than it owes,
      except where it was ready first: then for ever. */
  lemma {:induction false} OwedIsBounded(events: seq<Event>, chunk: nat)
    requires forall e <- events :: e.Output? ==> e.length <= chunk
    ensures var c := Run(events);
      && (c.spawned <==> PtySpawned in events)
      && (c.ready <==> BecomeReady in events)
      && c.outstanding < OUTPUT_HIGH_WATER + chunk
      && (!c.paused ==> c.outstanding < OUTPUT_HIGH_WATER)
      && (!c.ready || !c.spawned ==> c.outstanding == 0 && c.paused == c.spawned)
      && (c.ready && c.paused ==> c.outstanding > OUTPUT_LOW_WATER || ReadyFirst(events))
      && (Stuck(c) <==> ReadyFirst(events))
  {
    if events != [] {
      var init, last := events[..|events| - 1], events[|events| - 1];
      assert events == init + [last];
      OwedIsBounded(init, chunk);
      ReadyFirstSnoc(init, last);
    }
  }

  /** A terminal is stuck exactly when the renderer was ready first, and whatever comes then
      leaves it as it is. */
  lemma StuckIff(events: seq<Event>, more: seq<Event>)
    ensures Stuck(Run(events)) <==> ReadyFirst(events)
    ensures ReadyFirst(events) ==> RunFrom(Run(events), more) == Run(events)
  {
    var chunk := LongestOutput(events);
    OwedIsBounded(events, chunk);
    if ReadyFirst(events) { StuckForever(Run(events), more); }
  }

  function LongestOutput(events: seq<Event>): (chunk: nat)
    ensures forall e <- events :: e.Output? ==> e.length <= chunk
  {
    if events == [] then 0
    else
      var rest := LongestOutput(events[1..]);
      if events[0].Output? && events[0].length > rest then events[0].length else rest
  }

  lemma {:induction false} StuckForever(c: Credit, more: seq<Event>)
    requires Stuck(c)
    ensures RunFrom(c, more) == c
  {
    if more != [] { StuckForever(c, more[..|more| - 1]); }
  }
}
