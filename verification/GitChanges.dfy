/** The parser of `git diff --raw --numstat -z`: all raw records first, then the line counts. */
module GitChanges {
  import opened Options
  import opened NulRecords

  /** Lines as `Number` reads them: absent until counted, `NotANumber` for a dash. */
  datatype Lines = Absent | NotANumber | Lines(n: nat)

  datatype GitEntry = GitEntry(
    relativePath: string,
    oldPath: Option<string>,
    status: char,
    binary: bool,
    before: string,
    after: string,
    beforeMode: string,
    afterMode: string,
    added: Lines,
    removed: Lines)

  const CONFLICT: char := 'U'

  // ----- A map that remembers insertion order -----

  function IndexOf(byPath: seq<GitEntry>, path: string): (i: nat)
    ensures i <= |byPath|
    ensures i < |byPath| ==> byPath[i].relativePath == path
    ensures forall j :: 0 <= j < i ==> byPath[j].relativePath != path
  {
    if byPath == [] || byPath[0].relativePath == path then 0 else 1 + IndexOf(byPath[1..], path)
  }

  /** `set`, unless the path is known to be in conflict. */
  function Put(byPath: seq<GitEntry>, file: GitEntry): seq<GitEntry> {
    var i := IndexOf(byPath, file.relativePath);
    if i == |byPath| then byPath + [file]
    else if byPath[i].status == CONFLICT then byPath
    else byPath[i := file]
  }

  function Count(byPath: seq<GitEntry>, path: string, added: string, removed: string): seq<GitEntry>
    requires IsCount(added) && IsCount(removed)
  {
    var i := IndexOf(byPath, path);
    if path == "" || i == |byPath| || byPath[i].status == CONFLICT then byPath
    else if added == "-" then byPath[i := byPath[i].(binary := true)]
    else byPath[i := byPath[i].(binary := false, added := Number(added), removed := Number(removed))]
  }

  // ----- Fields -----

  function IndexOfChar(c: char, text: string): (i: nat)
    ensures i <= |text|
    ensures i < |text| ==> text[i] == c
    ensures forall j :: 0 <= j < i ==> text[j] != c
  {
    if text == "" || text[0] == c then 0 else 1 + IndexOfChar(c, text[1..])
  }

  /** `text.split(c)`. */
  function Fields(c: char, text: string): (fields: seq<string>)
    ensures fields != []
    decreases |text|
  {
    var i := IndexOfChar(c, text);
    if i == |text| then [text] else [text[..i]] + Fields(c, text[i + 1..])
  }

  predicate IsDigit(c: char) { '0' <= c <= '9' }

  predicate IsCount(text: string) { text == "-" || (text != "" && forall i :: 0 <= i < |text| ==> IsDigit(text[i])) }

  function DigitValue(c: char): nat
    requires IsDigit(c)
  {
    c as int - '0' as int
  }

  function Decimal(digits: string): nat
    requires forall i :: 0 <= i < |digits| ==> IsDigit(digits[i])
  {
    if digits == "" then 0
    else Decimal(digits[..|digits| - 1]) * 10 + DigitValue(digits[|digits| - 1])
  }

  function Number(text: string): Lines
    requires IsCount(text)
  {
    if text == "-" then NotANumber else Lines(Decimal(text))
  }

  /** The line counts and the path of a numstat record, if it is one. */
  function ParseStat(record: string): (r: Option<(string, string, string)>)
    ensures r.Some? ==> IsCount(r.value.0) && IsCount(r.value.1)
  {
    var i := IndexOfChar('\t', record);
    if i == |record| then None
    else
      var rest := record[i + 1..];
      var j := IndexOfChar('\t', rest);
      if j == |rest| || !IsCount(record[..i]) || !IsCount(rest[..j]) then None
      else Some((record[..i], rest[..j], rest[j + 1..]))
  }

  predicate StartsWith(c: char, text: string) { text != "" && text[0] == c }

  predicate IsRenamed(status: string) { StartsWith('R', status) || StartsWith('C', status) }

  function FieldAt(fields: seq<string>, i: nat): string { if i < |fields| then fields[i] else "" }

  /** The file of a raw record, unless something is missing. A missing element reads as empty. */
  function RawFile(record: string, source: string, target: string): Option<GitEntry>
    requires StartsWith(':', record)
  {
    var fields := Fields(' ', record[1..]);
    var status := FieldAt(fields, 4);
    if target == "" || status == "" || FieldAt(fields, 2) == "" || FieldAt(fields, 3) == ""
       || FieldAt(fields, 0) == "" || FieldAt(fields, 1) == "" then None
    else Some(GitEntry(target, if IsRenamed(status) then Some(source) else None, status[0], false,
                       fields[2], fields[3], fields[0], fields[1], Absent, Absent))
  }

  function PutRaw(byPath: seq<GitEntry>, file: Option<GitEntry>): seq<GitEntry> {
    if file.Some? then Put(byPath, file.value) else byPath
  }

  // ----- Parsing -----

  /** All records but the last, on top of the files known so far. */
  function Parse(records: seq<string>, byPath: seq<GitEntry>): seq<GitEntry>
    decreases |records|
  {
    if |records| <= 1 then byPath
    else if StartsWith(':', records[0]) then
      var source := records[1];
      if IsRenamed(FieldAt(Fields(' ', records[0][1..]), 4)) then
        Parse(Drop(records, 3), PutRaw(byPath, RawFile(records[0], source, FieldAt(records, 2))))
      else Parse(records[2..], PutRaw(byPath, RawFile(records[0], source, source)))
    else
      match ParseStat(records[0])
      case None => Parse(records[1..], byPath)
      case Some((added, removed, path)) =>
        if path != "" then Parse(records[1..], Count(byPath, path, added, removed))
        else Parse(Drop(records, 3), Count(byPath, FieldAt(records, 2), added, removed))
  }

  function Drop(records: seq<string>, n: nat): (r: seq<string>)
    ensures |r| <= |records| && (n > 0 && records != [] ==> |r| < |records|)
  {
    if n <= |records| then records[n..] else []
  }

  method ParseDiffEntries(raw: string) returns (entries: seq<GitEntry>)
    ensures entries == Parse(Split(raw), [])
  {
    var records := Split(raw);
    entries := [];
    var i := 0;
    while i < |records| - 1
      invariant 0 <= i
      invariant Parse(Drop(records, i), entries) == Parse(records, [])
    {
      var record := records[i];
      assert Drop(records, i)[0] == record && Drop(records, i)[1..] == Drop(records, i + 1);
      assert Drop(records, i)[2..] == Drop(records, i + 2) && Drop(Drop(records, i), 3) == Drop(records, i + 3);
      assert FieldAt(Drop(records, i), 2) == FieldAt(records, i + 2);
      if StartsWith(':', record) {
        var status := FieldAt(Fields(' ', record[1..]), 4);
        i := i + 1;
        var source := records[i];
        var target := source;
        if IsRenamed(status) {
          i := i + 1;
          target := FieldAt(records, i);
        }
        entries := PutRaw(entries, RawFile(record, source, target));
      } else {
        var stat := ParseStat(record);
        if stat.Some? {
          var target := stat.value.2;
          if target == "" {
            i := i + 2;
            target := FieldAt(records, i);
          }
          entries := Count(entries, target, stat.value.0, stat.value.1);
        }
      }
      i := i + 1;
    }
  }

  // ----- Printing -----

  datatype Stat = Binary | Text(added: nat, removed: nat)

  datatype Change = Change(
    path: string,
    oldPath: Option<string>,
    status: string,
    before: string,
    after: string,
    beforeMode: string,
    afterMode: string,
    stat: Stat)

  function Digits(n: nat): string {
    if n < 10 then [('0' as int + n) as char] else Digits(n / 10) + [('0' as int + n % 10) as char]
  }

  function RawRecord(c: Change): string {
    ":" + (c.beforeMode + " " + (c.afterMode + " " + (c.before + " " + (c.after + " " + c.status))))
  }

  function Counts(stat: Stat): string {
    match stat
    case Binary => "-" + "\t" + ("-" + "\t")
    case Text(added, removed) => Digits(added) + "\t" + (Digits(removed) + "\t")
  }

  function RawRecords(changes: seq<Change>): seq<string> {
    if changes == [] then []
    else
      var c := changes[0];
      [RawRecord(c)] + (if c.oldPath.Some? then [c.oldPath.value] else []) + [c.path] + RawRecords(changes[1..])
  }

  function StatRecords(changes: seq<Change>): seq<string> {
    if changes == [] then []
    else StatRecordsOf(changes[0]) + StatRecords(changes[1..])
  }

  function StatRecordsOf(c: Change): seq<string> {
    if c.oldPath.Some? then [Counts(c.stat), c.oldPath.value, c.path] else [Counts(c.stat) + c.path]
  }

  function PrintDiff(changes: seq<Change>): string { Terminated(RawRecords(changes) + StatRecords(changes)) }

  predicate Field(text: string) { text != "" && ' ' !in text && NUL !in text }

  /** A change as Git reports it: a source exactly for renames and copies. */
  predicate Reportable(c: Change) {
    && Field(c.beforeMode) && Field(c.afterMode) && Field(c.before) && Field(c.after) && Field(c.status)
    && c.path != "" && NUL !in c.path
    && (c.oldPath.Some? <==> c.status[0] == 'R' || c.status[0] == 'C')
    && (c.oldPath.Some? ==> NUL !in c.oldPath.value)
  }

  /** A change without conflict. */
  predicate ValidChange(c: Change) { Reportable(c) && c.status[0] != CONFLICT }

  ghost predicate ValidChanges(changes: seq<Change>) {
    && (forall c <- changes :: ValidChange(c))
    && (forall i, j :: 0 <= i < j < |changes| ==> changes[i].path != changes[j].path)
  }

  function Letter(status: string): char { if status == "" then ' ' else status[0] }

  function RawEntry(c: Change): GitEntry {
    GitEntry(c.path, c.oldPath, Letter(c.status), false, c.before, c.after, c.beforeMode, c.afterMode, Absent, Absent)
  }

  function Entry(c: Change): GitEntry {
    match c.stat
    case Binary => RawEntry(c).(binary := true)
    case Text(added, removed) => RawEntry(c).(added := Lines(added), removed := Lines(removed))
  }

  function RawEntries(changes: seq<Change>): (r: seq<GitEntry>)
    ensures |r| == |changes| && forall i :: 0 <= i < |r| ==> r[i] == RawEntry(changes[i])
  {
    seq(|changes|, i requires 0 <= i < |changes| => RawEntry(changes[i]))
  }

  function Entries(changes: seq<Change>): (r: seq<GitEntry>)
    ensures |r| == |changes| && forall i :: 0 <= i < |r| ==> r[i] == Entry(changes[i])
  {
    seq(|changes|, i requires 0 <= i < |changes| => Entry(changes[i]))
  }

  // ----- Fields are read back -----

  lemma {:induction false} DigitsRead(n: nat)
    ensures Digits(n) != "" && (forall i :: 0 <= i < |Digits(n)| ==> IsDigit(Digits(n)[i]))
    ensures Decimal(Digits(n)) == n
  {
    if n < 10 {
      assert Digits(n)[..0] == "";
    } else {
      DigitsRead(n / 10);
      var digits := Digits(n);
      assert digits[..|digits| - 1] == Digits(n / 10);
    }
  }

  lemma {:induction false} IndexOfCharIs(c: char, head: string, tail: string)
    requires c !in head
    ensures IndexOfChar(c, head + [c] + tail) == |head|
  {
    var text := head + [c] + tail;
    var i := IndexOfChar(c, text);
    assert text[|head|] == c;
    assert forall j :: 0 <= j < |head| ==> text[j] == head[j];
  }

  lemma FieldsFirst(c: char, head: string, tail: string)
    requires c !in head
    ensures Fields(c, head + ([c] + tail)) == [head] + Fields(c, tail)
  {
    IndexOfCharIs(c, head, tail);
    assert head + ([c] + tail) == head + [c] + tail;
    assert (head + [c] + tail)[..|head|] == head;
    assert (head + [c] + tail)[|head| + 1..] == tail;
  }

  lemma FieldsLast(c: char, text: string)
    requires c !in text
    ensures Fields(c, text) == [text]
  {
    assert forall i :: 0 <= i < |text| ==> text[i] != c;
  }

  lemma RawFields(c: Change)
    requires Reportable(c)
    ensures StartsWith(':', RawRecord(c))
    ensures Fields(' ', RawRecord(c)[1..]) == [c.beforeMode, c.afterMode, c.before, c.after, c.status]
  {
    hide Fields;
    var four := c.after + ([' '] + c.status);
    var three := c.before + ([' '] + four);
    var two := c.afterMode + ([' '] + three);
    FieldsLast(' ', c.status);
    FieldsFirst(' ', c.after, c.status);
    FieldsFirst(' ', c.before, four);
    FieldsFirst(' ', c.afterMode, three);
    FieldsFirst(' ', c.beforeMode, two);
    RawText(c, two, three, four);
  }

  lemma RawText(c: Change, two: string, three: string, four: string)
    requires four == c.after + ([' '] + c.status) && three == c.before + ([' '] + four) && two == c.afterMode + ([' '] + three)
    ensures RawRecord(c)[1..] == c.beforeMode + ([' '] + two)
  {
    assert c.after + " " + c.status == four;
    assert c.before + " " + four == three;
    assert c.afterMode + " " + three == two;
    assert c.beforeMode + " " + two == c.beforeMode + ([' '] + two);
  }

  lemma StatRead(added: string, removed: string, path: string)
    requires IsCount(added) && IsCount(removed)
    ensures ParseStat(added + "\t" + (removed + "\t") + path) == Some((added, removed, path))
  {
    var rest := removed + "\t" + path;
    var record := added + "\t" + (removed + "\t") + path;
    assert record == added + ['\t'] + rest && rest == removed + ['\t'] + path;
    IndexOfCharIs('\t', added, rest);
    IndexOfCharIs('\t', removed, path);
    assert record[..|added|] == added && record[|added| + 1..] == rest;
    assert rest[..|removed|] == removed && rest[|removed| + 1..] == path;
  }

  // ----- The two passes -----

  ghost predicate Unknown(known: seq<GitEntry>, path: string) {
    forall i :: 0 <= i < |known| ==> known[i].relativePath != path
  }

  lemma PutNew(known: seq<GitEntry>, file: GitEntry)
    requires Unknown(known, file.relativePath)
    ensures Put(known, file) == known + [file]
  {}

  /** The raw record of a change puts its file among those known. */
  lemma RawStep(c: Change, records: seq<string>, rest: seq<string>, known: seq<GitEntry>)
    requires Reportable(c) && rest != []
    requires records == [RawRecord(c)] + (if c.oldPath.Some? then [c.oldPath.value] else []) + [c.path] + rest
    ensures Parse(records, known) == Parse(rest, Put(known, RawEntry(c)))
  {
    hide Fields, Put, RawRecord;
    RawFields(c);
    assert records[0] == RawRecord(c);
    var source := if c.oldPath.Some? then c.oldPath.value else c.path;
    assert records[1] == source;
    assert RawFile(RawRecord(c), source, c.path) == Some(RawEntry(c));
    if c.oldPath.Some? {
      assert records[2] == c.path && records[3..] == rest;
    } else {
      assert records[2..] == rest;
    }
  }

  /** A path that is reported again: the later record takes the place of the earlier one, unless the
      path is in conflict, which stands. */
  lemma RawAgain(c: Change, records: seq<string>, rest: seq<string>, known: seq<GitEntry>, i: nat)
    requires Reportable(c) && rest != []
    requires records == [RawRecord(c)] + (if c.oldPath.Some? then [c.oldPath.value] else []) + [c.path] + rest
    requires i < |known| && known[i].relativePath == c.path && Unknown(known[..i], c.path)
    ensures Parse(records, known) == Parse(rest, if known[i].status == 'U' then known else known[i := RawEntry(c)])
  {
    RawStep(c, records, rest, known);
    assert forall j :: 0 <= j < i ==> known[j] == known[..i][j];
    assert IndexOf(known, c.path) == i;
    hide Parse, RawRecord;
  }

  lemma {:induction false} RawPass(changes: seq<Change>, rest: seq<string>, known: seq<GitEntry>)
    requires ValidChanges(changes) && rest != []
    requires forall c <- changes :: Unknown(known, c.path)
    ensures Parse(RawRecords(changes) + rest, known) == Parse(rest, known + RawEntries(changes))
  {
    hide *;
    if changes == [] {
      RawRecordsEmpty(rest, known);
    } else {
      var c, others := changes[0], changes[1..];
      TailValid(changes);
      RawEntriesFirst(changes, known);
      UnknownAfter(changes, known, RawEntry(c));
      RawRecordsFirst(changes, rest);
      PutNew(known, RawEntry(c));
      RawStep(c, RawRecords(changes) + rest, RawRecords(others) + rest, known);
      ValidIsReportable(c);
      RawPass(others, rest, known + [RawEntry(c)]);
    }
  }

  lemma RawRecordsEmpty(rest: seq<string>, known: seq<GitEntry>)
    ensures RawRecords([]) + rest == rest && known + RawEntries([]) == known
  {}

  lemma RawEntriesFirst(changes: seq<Change>, known: seq<GitEntry>)
    requires changes != []
    ensures known + RawEntries(changes) == known + [RawEntry(changes[0])] + RawEntries(changes[1..])
    ensures RawEntry(changes[0]).relativePath == changes[0].path
  {}

  lemma UnknownAfter(changes: seq<Change>, known: seq<GitEntry>, file: GitEntry)
    requires ValidChanges(changes) && changes != [] && file.relativePath == changes[0].path
    requires forall c <- changes :: Unknown(known, c.path)
    ensures Unknown(known, changes[0].path)
    ensures forall d <- changes[1..] :: Unknown(known + [file], d.path)
  {}

  lemma RawRecordsFirst(changes: seq<Change>, rest: seq<string>)
    requires changes != []
    ensures RawRecords(changes) + rest ==
      [RawRecord(changes[0])] + (if changes[0].oldPath.Some? then [changes[0].oldPath.value] else []) + [changes[0].path]
        + (RawRecords(changes[1..]) + rest)
  {
    hide RawRecord;
  }

  lemma StatRecordsFirst(changes: seq<Change>, rest: seq<string>)
    requires changes != []
    ensures StatRecords(changes) + rest == StatRecordsOf(changes[0]) + (StatRecords(changes[1..]) + rest)
  {
    hide StatRecordsOf;
  }

  lemma TailValid(changes: seq<Change>)
    requires ValidChanges(changes) && changes != []
    ensures ValidChange(changes[0]) && changes[0] in changes && ValidChanges(changes[1..])
    ensures forall d <- changes[1..] :: d.path != changes[0].path
  {}

  lemma CountAt(known: seq<GitEntry>, i: nat, added: string, removed: string)
    requires i < |known| && IsCount(added) && IsCount(removed)
    requires known[i].relativePath != "" && known[i].status != CONFLICT
    requires forall j :: 0 <= j < i ==> known[j].relativePath != known[i].relativePath
    ensures Count(known, known[i].relativePath, added, removed) ==
      known[i := if added == "-" then known[i].(binary := true)
                 else known[i].(binary := false, added := Number(added), removed := Number(removed))]
  {
    assert IndexOf(known, known[i].relativePath) == i;
  }

  /** The numstat record of a change completes its file. */
  lemma StatStep(c: Change, records: seq<string>, rest: seq<string>, known: seq<GitEntry>, i: nat)
    requires ValidChange(c) && rest != [] && i < |known| && known[i] == RawEntry(c)
    requires forall j :: 0 <= j < i ==> known[j].relativePath != c.path
    requires records == StatRecordsOf(c) + rest
    ensures Parse(records, known) == Parse(rest, known[i := Entry(c)])
  {
    hide ParseStat, Count, IsCount, Counts, Number;
    var path := if c.oldPath.Some? then "" else c.path;
    var added, removed := StatText(c, path);
    StatRead(added, removed, path);
    assert records[0] == Counts(c.stat) + path by {
      assert Counts(c.stat) + "" == Counts(c.stat);
    }
    NotRaw(added, records[0]);
    CountAt(known, i, added, removed);
    if c.oldPath.Some? {
      assert records[2] == c.path && records[3..] == rest;
    } else {
      assert records[1..] == rest;
    }
  }

  /** The text of the line counts in front of a path, and what is read from it. */
  lemma StatText(c: Change, path: string) returns (added: string, removed: string)
    ensures IsCount(added) && IsCount(removed) && added <= Counts(c.stat) + path
    ensures Counts(c.stat) + path == added + "\t" + (removed + "\t") + path
    ensures added == "-" <==> c.stat.Binary?
    ensures c.stat.Text? ==> Number(added) == Lines(c.stat.added) && Number(removed) == Lines(c.stat.removed)
  {
    if c.stat.Binary? {
      added, removed := "-", "-";
    } else {
      added, removed := Digits(c.stat.added), Digits(c.stat.removed);
      DigitsRead(c.stat.added);
      DigitsRead(c.stat.removed);
      NoDash(c.stat.added);
      NoDash(c.stat.removed);
    }
    assert added <= added + "\t" + (removed + "\t") + path;
  }

  lemma NoDash(n: nat)
    ensures Digits(n) != "-"
  {
    DigitsRead(n);
    assert IsDigit(Digits(n)[0]);
  }

  lemma NotRaw(added: string, record: string)
    requires IsCount(added) && added <= record
    ensures !StartsWith(':', record)
  {
    assert record[0] == added[0];
  }

  lemma {:induction false} StatPass(changes: seq<Change>, finished: seq<GitEntry>)
    requires ValidChanges(changes)
    requires forall c <- changes :: Unknown(finished, c.path)
    ensures Parse(StatRecords(changes) + [""], finished + RawEntries(changes)) == finished + Entries(changes)
  {
    hide *;
    if changes == [] {
      StatRecordsEmpty(finished);
    } else {
      var c, others := changes[0], changes[1..];
      TailValid(changes);
      EntriesFirst(changes, finished);
      EntryPath(c);
      UnknownAfter(changes, finished, Entry(c));
      StatRecordsFirst(changes, [""]);
      UnknownPrefix(finished, c.path, finished + RawEntries(changes));
      StatStep(c, StatRecords(changes) + [""], StatRecords(others) + [""], finished + RawEntries(changes), |finished|);
      StatPass(others, finished + [Entry(c)]);
    }
  }

  lemma StatRecordsEmpty(finished: seq<GitEntry>)
    ensures Parse(StatRecords([]) + [""], finished + RawEntries([])) == finished + Entries([])
  {
    assert StatRecords([]) + [""] == [""] && finished + RawEntries([]) == finished + Entries([]);
  }

  lemma EntriesFirst(changes: seq<Change>, finished: seq<GitEntry>)
    requires changes != []
    ensures finished + Entries(changes) == finished + [Entry(changes[0])] + Entries(changes[1..])
    ensures (finished + RawEntries(changes))[|finished|] == RawEntry(changes[0])
    ensures (finished + RawEntries(changes))[|finished| := Entry(changes[0])] == finished + [Entry(changes[0])] + RawEntries(changes[1..])
  {
    hide RawEntry, Entry;
  }

  lemma EntryPath(c: Change)
    ensures Entry(c).relativePath == c.path
  {}

  lemma UnknownPrefix(finished: seq<GitEntry>, path: string, known: seq<GitEntry>)
    requires Unknown(finished, path) && finished <= known
    ensures forall j :: 0 <= j < |finished| ==> known[j].relativePath != path
  {}

  lemma {:induction false} RecordsClean(changes: seq<Change>)
    requires ValidChanges(changes)
    ensures forall r <- RawRecords(changes) + StatRecords(changes) :: NUL !in r
  {
    if changes != [] {
      TailValid(changes);
      RecordsClean(changes[1..]);
      ChangeClean(changes[0]);
      hide RawRecord, Counts, ValidChange;
    }
  }

  lemma ChangeClean(c: Change)
    requires ValidChange(c)
    ensures NUL !in RawRecord(c) && NUL !in Counts(c.stat) && NUL !in c.path
    ensures c.oldPath.Some? ==> NUL !in c.oldPath.value
    ensures NUL !in Counts(c.stat) + c.path
  {
    if c.stat.Text? {
      DigitsRead(c.stat.added);
      DigitsRead(c.stat.removed);
    }
  }

  /** Parsing undoes printing for any list of changes without conflicts to distinct paths:
      renames, copies and binary files included, in the printed order. */
  lemma DiffRoundTrip(changes: seq<Change>)
    requires ValidChanges(changes)
    ensures Parse(Split(PrintDiff(changes)), []) == Entries(changes)
  {
    hide Parse, Split;
    RecordsClean(changes);
    SplitTerminated(RawRecords(changes) + StatRecords(changes));
    assert RawRecords(changes) + StatRecords(changes) + [""] == RawRecords(changes) + (StatRecords(changes) + [""]);
    RawPass(changes, StatRecords(changes) + [""], []);
    StatPass(changes, []);
    assert [] + RawEntries(changes) == RawEntries(changes) && [] + Entries(changes) == Entries(changes);
  }

  // ----- Whatever Git prints -----

  /** What every entry has: a path, the modes and the objects of both sides. */
  predicate Complete(e: GitEntry) {
    e.relativePath != "" && e.before != "" && e.after != "" && e.beforeMode != "" && e.afterMode != ""
  }

  /** One complete entry for each path. */
  ghost predicate OnePerPath(entries: seq<GitEntry>) {
    && (forall i :: 0 <= i < |entries| ==> Complete(entries[i]))
    && (forall i, j :: 0 <= i < j < |entries| ==> entries[i].relativePath != entries[j].relativePath)
  }

  /** The paths known stay where they are, and those in conflict as they are. */
  ghost predicate Extends(known: seq<GitEntry>, entries: seq<GitEntry>) {
    && |known| <= |entries|
    && (forall i :: 0 <= i < |known| ==> entries[i].relativePath == known[i].relativePath)
    && (forall i :: 0 <= i < |known| && known[i].status == 'U' ==> entries[i] == known[i])
  }

  lemma PutExtends(known: seq<GitEntry>, file: Option<GitEntry>)
    requires OnePerPath(known) && (file.Some? ==> Complete(file.value))
    ensures OnePerPath(PutRaw(known, file)) && Extends(known, PutRaw(known, file))
  {}

  lemma CountExtends(known: seq<GitEntry>, path: string, added: string, removed: string)
    requires OnePerPath(known) && IsCount(added) && IsCount(removed)
    ensures OnePerPath(Count(known, path, added, removed)) && Extends(known, Count(known, path, added, removed))
  {
    hide IsCount, Number;
  }

  lemma RawFileIsComplete(record: string, source: string, target: string)
    requires StartsWith(':', record)
    ensures var file := RawFile(record, source, target); file.Some? ==> Complete(file.value)
  {
    hide Fields;
  }

  /** Whatever the records are, well-formed or not: a path has one entry, in the place of its first
      mention and with nothing missing, and a conflict stands whatever follows it. */
  lemma {:induction false} ParseExtends(records: seq<string>, known: seq<GitEntry>)
    requires OnePerPath(known)
    ensures OnePerPath(Parse(records, known)) && Extends(known, Parse(records, known))
    decreases |records|, 0
  {
    hide Fields, ParseStat, OnePerPath, Extends, RawFile, PutRaw, Count;
    ExtendsItself(known);
    if |records| > 1 {
      if StartsWith(':', records[0]) {
        var renamed := IsRenamed(FieldAt(Fields(' ', records[0][1..]), 4));
        var file := RawFile(records[0], records[1], if renamed then FieldAt(records, 2) else records[1]);
        RawFileIsComplete(records[0], records[1], if renamed then FieldAt(records, 2) else records[1]);
        PutExtends(known, file);
        ParseFurther(Drop(records, if renamed then 3 else 2), known, PutRaw(known, file));
      } else {
        var stat := ParseStat(records[0]);
        if stat.None? {
          ParseFurther(records[1..], known, known);
        } else {
          var path := if stat.value.2 != "" then stat.value.2 else FieldAt(records, 2);
          CountExtends(known, path, stat.value.0, stat.value.1);
          ParseFurther(Drop(records, if stat.value.2 != "" then 1 else 3), known, Count(known, path, stat.value.0, stat.value.1));
        }
      }
    }
  }

  lemma ExtendsItself(known: seq<GitEntry>)
    ensures Extends(known, known)
  {}

  lemma {:induction false} ParseFurther(rest: seq<string>, known: seq<GitEntry>, more: seq<GitEntry>)
    requires OnePerPath(more) && Extends(known, more)
    ensures OnePerPath(Parse(rest, more)) && Extends(known, Parse(rest, more))
    decreases |rest|, 1
  {
    ParseExtends(rest, more);
    hide Parse, OnePerPath;
  }

  lemma ValidIsReportable(c: Change)
    requires ValidChange(c)
    ensures Reportable(c)
  {}
}
