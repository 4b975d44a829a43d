/** Text in records that end with NUL, as Git prints them with `-z`. */
module NulRecords {
  const NUL: char := '\0'

  /** `text.split('\0')`. */
  function Split(text: string): (records: seq<string>)
    ensures records != []
  {
    if text == "" then [""]
    else
      var rest := Split(text[1..]);
      if text[0] == NUL then [""] + rest else [[text[0]] + rest[0]] + rest[1..]
  }

  function Terminated(records: seq<string>): string {
    if records == [] then "" else records[0] + [NUL] + Terminated(records[1..])
  }

  lemma {:induction false} SplitFirst(record: string, text: string)
    requires NUL !in record
    ensures Split(record + [NUL] + text) == [record] + Split(text)
  {
    var whole := record + [NUL] + text;
    if record == "" {
      assert whole[0] == NUL && whole[1..] == text;
    } else {
      SplitFirst(record[1..], text);
      assert whole[1..] == record[1..] + [NUL] + text;
      assert [record[0]] + record[1..] == record;
    }
  }

  /** Splitting gives the records back, with one empty record after the last. */
  lemma {:induction false} SplitTerminated(records: seq<string>)
    requires forall r <- records :: NUL !in r
    ensures Split(Terminated(records)) == records + [""]
  {
    if records != [] {
      SplitFirst(records[0], Terminated(records[1..]));
      SplitTerminated(records[1..]);
      assert [records[0]] + (records[1..] + [""]) == records + [""];
    }
  }
}
