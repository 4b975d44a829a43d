/** The parser of `git status --porcelain -z`. */
module GitStatus {
  import opened Options
  import opened NulRecords

  datatype GitStatusEntry = GitStatusEntry(code: string, path: string, oldPath: Option<string>)

  predicate HasSource(code: string) { 'R' in code || 'C' in code }

  function NonEmpty(text: string): Option<string> { if text == "" then None else Some(text) }

  /** The entries of all records but the last. */
  function Entries(records: seq<string>): seq<GitStatusEntry> {
    if |records| <= 1 then []
    else if |records[0]| < 4 then Entries(records[1..])
    else
      var code, path := records[0][..2], records[0][3..];
      if HasSource(code) then [GitStatusEntry(code, path, NonEmpty(records[1]))] + Entries(records[2..])
      else [GitStatusEntry(code, path, None)] + Entries(records[1..])
  }

  method ParsePorcelainStatus(output: string) returns (entries: seq<GitStatusEntry>)
    ensures entries == Entries(Split(output))
  {
    var records := Split(output);
    entries := [];
    var index := 0;
    while index < |records| - 1
      invariant 0 <= index <= |records|
      invariant entries + Entries(records[index..]) == Entries(records)
    {
      var record := records[index];
      assert records[index..][1..] == records[index + 1..];
      if |record| < 4 {
        index := index + 1;
        continue;
      }
      var code, path := record[..2], record[3..];
      var oldPath := None;
      if HasSource(code) {
        assert records[index..][2..] == records[index + 2..];
        index := index + 1;
        oldPath := NonEmpty(records[index]);
      }
      entries := entries + [GitStatusEntry(code, path, oldPath)];
      index := index + 1;
    }
  }

  // ----- Printing -----

  function RecordOf(entry: GitStatusEntry): string { entry.code + " " + entry.path }

  function Records(entries: seq<GitStatusEntry>): seq<string> {
    if entries == [] then []
    else
      [RecordOf(entries[0])]
        + (if entries[0].oldPath.Some? then [entries[0].oldPath.value] else [])
        + Records(entries[1..])
  }

  function PrintStatus(entries: seq<GitStatusEntry>): string { Terminated(Records(entries)) }

  /** What Git reports: two status letters, and a source exactly for renames and copies. */
  predicate ValidEntry(entry: GitStatusEntry) {
    && |entry.code| == 2 && NUL !in entry.code
    && entry.path != "" && NUL !in entry.path
    && (entry.oldPath.Some? <==> 'R' in entry.code || 'C' in entry.code)
    && (entry.oldPath.Some? ==> entry.oldPath.value != "" && NUL !in entry.oldPath.value)
  }

  lemma {:induction false} RecordsClean(entries: seq<GitStatusEntry>)
    requires forall e <- entries :: ValidEntry(e)
    ensures forall r <- Records(entries) :: NUL !in r
  {
    if entries != [] {
      assert ValidEntry(entries[0]);
      RecordsClean(entries[1..]);
    }
  }

  lemma RecordParts(entry: GitStatusEntry)
    requires ValidEntry(entry)
    ensures var record := RecordOf(entry); |record| >= 4 && record[..2] == entry.code && record[3..] == entry.path
  {}

  lemma OneRecord(entry: GitStatusEntry, rest: seq<string>)
    requires ValidEntry(entry) && entry.oldPath.None? && rest != []
    ensures Entries([RecordOf(entry)] + rest) == [entry] + Entries(rest)
  {
    RecordParts(entry);
    hide RecordOf;
    assert ([RecordOf(entry)] + rest)[1..] == rest;
  }

  lemma TwoRecords(entry: GitStatusEntry, rest: seq<string>)
    requires ValidEntry(entry) && entry.oldPath.Some?
    ensures Entries([RecordOf(entry), entry.oldPath.value] + rest) == [entry] + Entries(rest)
  {
    RecordParts(entry);
    hide RecordOf;
    assert ([RecordOf(entry), entry.oldPath.value] + rest)[2..] == rest;
  }

  lemma {:induction false} EntriesOfRecords(entries: seq<GitStatusEntry>)
    requires forall e <- entries :: ValidEntry(e)
    ensures Entries(Records(entries) + [""]) == entries
  {
    hide Entries, RecordOf, NonEmpty;
    if entries == [] {
      assert Records(entries) + [""] == [""];
      NothingLeft();
    } else {
      var e, records := entries[0], Records(entries[1..]);
      assert ValidEntry(e);
      EntriesOfRecords(entries[1..]);
      FirstRecords(entries);
      hide Records, ValidEntry;
      assert entries == [e] + entries[1..];
      if e.oldPath.Some? {
        TwoRecords(e, records + [""]);
        assert ([RecordOf(e), e.oldPath.value] + records) + [""] == [RecordOf(e), e.oldPath.value] + (records + [""]);
      } else {
        OneRecord(e, records + [""]);
        assert ([RecordOf(e)] + records) + [""] == [RecordOf(e)] + (records + [""]);
      }
    }
  }

  lemma FirstRecords(entries: seq<GitStatusEntry>)
    requires entries != []
    ensures var first := entries[0];
      Records(entries) == (if first.oldPath.Some? then [RecordOf(first), first.oldPath.value] else [RecordOf(first)]) + Records(entries[1..])
  {
    hide RecordOf;
  }

  lemma NothingLeft()
    ensures Entries([""]) == []
  {}

  /** The entry is what the record at `i` says, with the record after it for a source where the code
      asks for one. */
  ghost predicate ReadAt(entry: GitStatusEntry, records: seq<string>, i: nat) {
    && i + 1 < |records| && |records[i]| >= 4
    && entry.code == records[i][..2] && entry.path == records[i][3..]
    && entry.oldPath == if ('R' in entry.code || 'C' in entry.code) && records[i + 1] != "" then Some(records[i + 1]) else None
  }

  /** Whatever the records are: each entry is read from a record of at least four characters, and
      none from the last one. */
  lemma {:induction false} EntriesAreRead(records: seq<string>, e: nat) returns (i: nat)
    requires e < |Entries(records)|
    ensures ReadAt(Entries(records)[e], records, i)
  {
    var step, first := StepOf(records), FirstEntries(records);
    if e < |first| {
      i := 0;
    } else {
      i := EntriesAreRead(records[step..], e - |first|);
      i := i + step;
    }
  }

  /** How many records the first turn of the loop uses up, and what it reads. */
  function StepOf(records: seq<string>): (step: nat)
    requires |records| > 1
    ensures 1 <= step <= 2
  {
    if |records[0]| >= 4 && HasSource(records[0][..2]) then 2 else 1
  }

  function FirstEntries(records: seq<string>): seq<GitStatusEntry>
    requires |records| > 1
  {
    if |records[0]| < 4 then []
    else [GitStatusEntry(records[0][..2], records[0][3..], if HasSource(records[0][..2]) then NonEmpty(records[1]) else None)]
  }

  /** Parsing undoes printing, whatever the paths contain: a source is never taken for a file
      of its own. */
  lemma StatusRoundTrip(entries: seq<GitStatusEntry>)
    requires forall e <- entries :: ValidEntry(e)
    ensures Entries(Split(PrintStatus(entries))) == entries
  {
    RecordsClean(entries);
    SplitTerminated(Records(entries));
    EntriesOfRecords(entries);
  }
}
