/**
 * The input handling and formatting fragments of the command centre
 * (main.py, with the prompt of ui/menu.py): the answer the prompt returns,
 * the cancel words, the batch target list, the uptime string and the
 * truncated table columns. The console, the scanner and the database are
 * not modelled; their inputs are passed in.
 */
module CommandCenter {
  import opened Wrappers
  import opened PyStr
  import opened ProductionScanning

  // ------------------------------------------------------------------
  // Prompt and cancel words
  // ------------------------------------------------------------------

  /** `Menu.prompt`: the line read, stripped and upper-cased; an end of input
      or an interrupt (`None`) answers "0". */
  function PromptAnswer(input: Option<string>): (r: string)
    ensures input.None? ==> r == "0"
    ensures input.Some? ==> |r| == |Strip(input.value)|
    ensures input.Some? ==> forall k :: 0 <= k < |r| ==> !IsAsciiLower(r[k])
  {
    match input
    case None => "0"
    case Some(line) => Upper(Strip(line))
  }

  /** The words that leave a scan prompt. */
  predicate IsCancelWord(w: string) {
    w == "back" || w == "exit" || w == "0"
  }

  /** `not answer or answer.lower() in ['back', 'exit', '0']`. */
  predicate Cancels(answer: string) {
    answer == "" || IsCancelWord(Lower(answer))
  }

  lemma LowerUpper(s: string)
    ensures Lower(Upper(s)) == Lower(s)
  {
    assert forall i :: 0 <= i < |s| ==> LowerChar(UpperChar(s[i])) == LowerChar(s[i]);
  }

  /** A typed line cancels exactly when it is blank or, once stripped, a
      cancel word in any letter case ("BACK" and "Back" as well as "back");
      an interrupted prompt always cancels. */
  lemma CancelsIff(input: Option<string>)
    ensures input.None? ==> Cancels(PromptAnswer(input))
    ensures input.Some? ==>
      (Cancels(PromptAnswer(input)) <==> (Strip(input.value) == "" || IsCancelWord(Lower(Strip(input.value)))))
  {
    if input.Some? {
      LowerUpper(Strip(input.value));
    } else {
      assert Lower("0") == "0";
    }
  }

  // ------------------------------------------------------------------
  // Batch targets
  // ------------------------------------------------------------------

  /** The stripped fields that are not blank, in order. */
  function NonBlankStripped(fields: seq<string>): (r: seq<string>)
    ensures |r| <= |fields|
    ensures forall k :: 0 <= k < |r| ==> r[k] != "" && Strip(r[k]) == r[k]
  {
    if fields == [] then []
    else
      StripIdempotent(fields[0]);
      (if Strip(fields[0]) != "" then [Strip(fields[0])] else []) + NonBlankStripped(fields[1..])
  }

  /** `[t.strip() for t in targets_input.split(',') if t.strip()]`. */
  function ParseTargets(input: string): seq<string> {
    NonBlankStripped(Split(input, ','))
  }

  /** A target is in the list exactly when some field strips to it. */
  lemma {:induction false} NonBlankStrippedMembers(fields: seq<string>, t: string)
    ensures t in NonBlankStripped(fields) <==> (t != "" && exists f :: f in fields && Strip(f) == t)
  {
    if fields != [] {
      NonBlankStrippedMembers(fields[1..], t);
      if t != "" && Strip(fields[0]) != t && (exists f :: f in fields && Strip(f) == t) {
        var f :| f in fields && Strip(f) == t;
        assert f in fields[1..];
      }
    }
  }

  /** The fields are kept in order: parsing a concatenation of field lists
      parses each list. */
  lemma {:induction false} NonBlankStrippedConcat(xs: seq<string>, ys: seq<string>)
    ensures NonBlankStripped(xs + ys) == NonBlankStripped(xs) + NonBlankStripped(ys)
  {
    if xs != [] {
      assert (xs + ys)[0] == xs[0] && (xs + ys)[1..] == xs[1..] + ys;
      NonBlankStrippedConcat(xs[1..], ys);
      var h := if Strip(xs[0]) != "" then [Strip(xs[0])] else [];
      assert NonBlankStripped(xs + ys) == h + (NonBlankStripped(xs[1..]) + NonBlankStripped(ys));
      assert h + (NonBlankStripped(xs[1..]) + NonBlankStripped(ys))
          == (h + NonBlankStripped(xs[1..])) + NonBlankStripped(ys);
    } else {
      assert xs + ys == ys;
    }
  }

  /** Fields that are already stripped, non-blank and free of commas come
      back unchanged from their comma-joined text. */
  lemma {:induction false} TargetsRoundTrip(ts: seq<string>)
    requires |ts| >= 1
    requires forall k :: 0 <= k < |ts| ==> ts[k] != "" && Strip(ts[k]) == ts[k] && ',' !in ts[k]
    ensures ParseTargets(Join(ts, ',')) == ts
  {
    SplitJoin(ts, ',');
    KeptAsIs(ts);
  }

  lemma {:induction false} KeptAsIs(ts: seq<string>)
    requires forall k :: 0 <= k < |ts| ==> ts[k] != "" && Strip(ts[k]) == ts[k]
    ensures NonBlankStripped(ts) == ts
  {
    if ts != [] {
      KeptAsIs(ts[1..]);
    }
  }

  /** No lower-case ASCII letter in `s`. */
  predicate NoLower(s: string) {
    forall j :: 0 <= j < |s| ==> !IsAsciiLower(s[j])
  }

  /** The fields of a split have no lower-case letter the input lacks. */
  lemma {:induction false} SplitNoLower(s: string, c: char)
    requires NoLower(s)
    ensures forall k :: 0 <= k < |Split(s, c)| ==> NoLower(Split(s, c)[k])
  {
    if s != [] {
      SplitNoLower(s[1..], c);
      var rest := Split(s[1..], c);
      if s[0] != c {
        assert forall j :: 0 < j < |[s[0]] + rest[0]| ==> ([s[0]] + rest[0])[j] == rest[0][j - 1];
      }
    }
  }

  lemma StripNoLower(f: string)
    requires NoLower(f)
    ensures NoLower(Strip(f))
  {
    StripIsTrimmedSlice(f);
  }

  lemma {:induction false} NonBlankStrippedNoLower(fields: seq<string>)
    requires forall k :: 0 <= k < |fields| ==> NoLower(fields[k])
    ensures forall k :: 0 <= k < |NonBlankStripped(fields)| ==> NoLower(NonBlankStripped(fields)[k])
  {
    if fields != [] {
      StripNoLower(fields[0]);
      NonBlankStrippedNoLower(fields[1..]);
    }
  }

  /** The targets of a batch prompt reach the scanner upper-cased: the
      targets parsed from the prompt's answer have no lower-case letter. */
  lemma TargetsUpperCase(input: Option<string>)
    ensures forall k :: 0 <= k < |ParseTargets(PromptAnswer(input))| ==> NoLower(ParseTargets(PromptAnswer(input))[k])
  {
    var a := PromptAnswer(input);
    SplitNoLower(a, ',');
    NonBlankStrippedNoLower(Split(a, ','));
  }

  // ------------------------------------------------------------------
  // What the scan prompts lead to
  // ------------------------------------------------------------------

  datatype BatchStep = BatchCancelled | NoValidTargets | BatchScannerMissing | ScanBatch(targets: seq<string>)

  /** `handle_batch_operations` up to the scan: cancel, warn about an empty
      target list, report the missing scanner, or scan. The target list is
      checked before the scanner. */
  function BatchOperation(input: Option<string>, scannerAvailable: bool): (r: BatchStep)
    ensures r.BatchCancelled? <==> Cancels(PromptAnswer(input))
    ensures r.NoValidTargets? <==> !Cancels(PromptAnswer(input)) && ParseTargets(PromptAnswer(input)) == []
    ensures r.BatchScannerMissing? <==>
              !Cancels(PromptAnswer(input)) && ParseTargets(PromptAnswer(input)) != [] && !scannerAvailable
    ensures r.ScanBatch? ==> scannerAvailable && r.targets != [] && r.targets == ParseTargets(PromptAnswer(input))
  {
    var answer := PromptAnswer(input);
    if Cancels(answer) then BatchCancelled
    else
      var targets := ParseTargets(answer);
      if targets == [] then NoValidTargets
      else if !scannerAvailable then BatchScannerMissing
      else ScanBatch(targets)
  }

  datatype SingleStep = SingleCancelled | ScannerMissing | ScanUser(username: string)

  /** `handle_single_scan` up to the scan: cancel, report the missing
      scanner, or scan the answer as given. */
  function SingleScan(input: Option<string>, scannerAvailable: bool): (r: SingleStep)
    ensures r.SingleCancelled? <==> Cancels(PromptAnswer(input))
    ensures r.ScannerMissing? <==> !Cancels(PromptAnswer(input)) && !scannerAvailable
    ensures r.ScanUser? ==> r.username == PromptAnswer(input) && r.username != ""
  {
    var answer := PromptAnswer(input);
    if Cancels(answer) then SingleCancelled
    else if !scannerAvailable then ScannerMissing
    else ScanUser(answer)
  }

  // ------------------------------------------------------------------
  // Uptime
  // ------------------------------------------------------------------

  /** `int(x)` for a float: truncation toward zero. */
  function TruncToInt(x: real): (r: int)
    ensures x >= 0.0 ==> r as real <= x < r as real + 1.0
    ensures x < 0.0 ==> r as real - 1.0 < x <= r as real
  {
    if x >= 0.0 then x.Floor else -((-x).Floor)
  }

  /** The hours and the minutes past the hour of a whole number of seconds,
      with Python's floor division (Dafny's `/` and `%` agree with it for a
      positive divisor). */
  function UptimeParts(seconds: int): (int, int) {
    var minutes := seconds / 60;
    (minutes / 60, minutes % 60)
  }

  /** The hours and minutes are the whole hours and the whole minutes past
      them: every second count lies in the minute they name. */
  lemma UptimePartsMeaning(seconds: int)
    ensures var (h, m) := UptimeParts(seconds);
      0 <= m < 60 && h * 3600 + m * 60 <= seconds < h * 3600 + m * 60 + 60
    ensures seconds >= 0 ==> UptimeParts(seconds).0 >= 0
  {
    var minutes := seconds / 60;
    assert minutes == 60 * (minutes / 60) + minutes % 60;
  }

  /** `f"{uptime_hours}h {uptime_minutes % 60}m"` for `elapsed` seconds. */
  function UptimeString(elapsed: real): (r: string)
    ensures var (h, m) := UptimeParts(TruncToInt(elapsed));
      r == IntToString(h) + "h " + NatToString(m) + "m"
  {
    var (h, m) := UptimeParts(TruncToInt(elapsed));
    UptimePartsMeaning(TruncToInt(elapsed));
    IntToString(h) + "h " + IntToString(m) + "m"
  }

  /** The minutes shown are one or two digits. */
  lemma UptimeMinutesShort(elapsed: real)
    ensures 1 <= |NatToString(UptimeParts(TruncToInt(elapsed)).1)| <= 2
  {
    var m := UptimeParts(TruncToInt(elapsed)).1;
    UptimePartsMeaning(TruncToInt(elapsed));
    if m >= 10 {
      assert NatToString(m) == NatToString(m / 10) + [DigitChar(m % 10)];
    }
  }

  // ------------------------------------------------------------------
  // Table columns
  // ------------------------------------------------------------------

  /** The URL column of the scan results: at most 40 characters, or the
      first 40 followed by "...". */
  function TruncateUrl(url: string): (r: string)
    ensures |url| <= 40 ==> r == url
    ensures |url| > 40 ==> |r| == 43 && r[..40] == url[..40] && r[40..] == "..."
  {
    if |url| > 40 then url[..40] + "..." else url
  }

  /** Truncating a truncated URL changes nothing further. */
  lemma TruncateUrlIdempotent(url: string)
    ensures TruncateUrl(TruncateUrl(url)) == TruncateUrl(url)
  {
    if |url| > 40 {
      var r := TruncateUrl(url);
      assert r[..40] == url[..40];
    }
  }

  /** One row of the scan results table. */
  function ResultRow(d: ScanResultDetail): (row: seq<string>)
    ensures |row| == 3 && row[0] == d.platform && row[2] == TruncateUrl(d.url)
    ensures row[1] == (if d.found then "✓" else "✗") + " " + d.status
  {
    [d.platform, (if d.found then "✓" else "✗") + " " + d.status, TruncateUrl(d.url)]
  }

  /** `_display_scan_results`: one row per platform, in the result's order. */
  method ResultRows(details: seq<ScanResultDetail>) returns (rows: seq<seq<string>>)
    ensures |rows| == |details|
    ensures forall i :: 0 <= i < |rows| ==> rows[i] == ResultRow(details[i])
  {
    rows := [];
    for i := 0 to |details|
      invariant |rows| == i
      invariant forall k :: 0 <= k < i ==> rows[k] == ResultRow(details[k])
    {
      rows := rows + [ResultRow(details[i])];
    }
  }

  /** A stored scan as the history table reads it (the date column is taken
      already formatted). */
  datatype HistoryRecord = HistoryRecord(target: string, platform: string, status: string, date: string)

  /** The history row numbered `n`. */
  function HistoryRow(n: nat, r: HistoryRecord): (row: seq<string>)
    ensures |row| == 5 && row[0] == NatToString(n)
    ensures |row[1]| <= 15 && row[1] == Take(r.target, 15)
    ensures |row[2]| <= 12 && row[2] == Take(r.platform, 12)
    ensures row[3] == r.status && row[4] == r.date
  {
    [NatToString(n), Take(r.target, 15), Take(r.platform, 12), r.status, r.date]
  }

  /** `handle_scan_history`: the first 20 records, numbered from 1. */
  method HistoryRows(history: seq<HistoryRecord>) returns (rows: seq<seq<string>>)
    ensures |rows| == if |history| < 20 then |history| else 20
    ensures forall i :: 0 <= i < |rows| ==> rows[i] == HistoryRow(i + 1, history[i])
  {
    var shown := Take(history, 20);
    rows := [];
    for i := 0 to |shown|
      invariant |rows| == i
      invariant forall k :: 0 <= k < i ==> rows[k] == HistoryRow(k + 1, history[k])
    {
      rows := rows + [HistoryRow(i + 1, shown[i])];
    }
  }

  /** The row numbers of the history table are pairwise distinct. */
  lemma HistoryNumbersDistinct(i: nat, j: nat, a: HistoryRecord, b: HistoryRecord)
    requires i != j
    ensures HistoryRow(i, a)[0] != HistoryRow(j, b)[0]
  {
    if NatToString(i) == NatToString(j) {
      NatToStringInjective(i, j);
    }
  }
}
