/**
 * `process_input` and `get_payload` of parsers.py: the text is cut into
 * stripped non-empty lines, every line is parsed by a fresh `Parsers`, good
 * records go to the report and each bad line is recorded by the position of
 * the first line with the same text. An exception raised while parsing a line
 * ends the whole run.
 */
module Pipeline {
  import opened Results
  import opened Strings
  import opened Parsing
  import opened Report
  import opened Layouts

  /** `[l for l in lines if l]`. */
  function DropEmpty(lines: seq<string>): (r: seq<string>)
    ensures |r| <= |lines|
    ensures forall i :: 0 <= i < |r| ==> r[i] != ""
    ensures forall l :: l in r <==> l in lines && l != ""
    ensures multiset(r) == multiset(lines)["" := 0]
  {
    if |lines| == 0 then []
    else
      assert lines == [lines[0]] + lines[1..];
      if lines[0] == "" then DropEmpty(lines[1..])
      else [lines[0]] + DropEmpty(lines[1..])
  }

  /** The filter keeps the lines in their order: it works piece by piece. */
  lemma {:induction false} DropEmptyAppend(a: seq<string>, b: seq<string>)
    ensures DropEmpty(a + b) == DropEmpty(a) + DropEmpty(b)
  {
    if |a| > 0 {
      assert (a + b)[1..] == a[1..] + b;
      DropEmptyAppend(a[1..], b);
    } else {
      assert a + b == b;
    }
  }

  /** The lines `process_input` parses: split on newlines, stripped, the empty ones dropped. */
  function NonEmptyLines(text: string): (r: seq<string>)
    ensures forall i :: 0 <= i < |r| ==> r[i] != "" && Trimmed(r[i])
  {
    var trimmed := TrimAll(Split(text, '\n'));
    assert forall l :: l in trimmed ==> Trimmed(l);
    DropEmpty(trimmed)
  }

  /** A text without a newline is one line, kept when something is left after stripping. */
  lemma SingleLine(text: string)
    requires '\n' !in text && Trim(text) != ""
    ensures NonEmptyLines(text) == [Trim(text)]
  {
    SplitNoSeparator(text, '\n');
    assert TrimAll([text]) == [Trim(text)];
  }

  /** How far the loop of `process_input` gets. */
  datatype Progress =
    | Collected(records: seq<ContactRecord>, errors: seq<nat>)  // the good records and error positions so far
    | Aborted(crash: Crash)                                     // an exception left the loop

  /** The outcome of parsing each line, in line order. */
  function Outcomes(lines: seq<string>): (r: seq<ParseOutcome>)
    ensures |r| == |lines|
  {
    seq(|lines|, i requires 0 <= i < |lines| => ParseLine(lines[i]))
  }

  /**
   * The loop of `process_input` after its first `n` lines, `outcomes[i]` being
   * what line `i` parses to.
   */
  function Collect(lines: seq<string>, outcomes: seq<ParseOutcome>, n: nat): Progress
    requires n <= |lines| == |outcomes|
  {
    if n == 0 then Collected([], [])
    else
      match Collect(lines, outcomes, n - 1)
      case Aborted(crash) => Aborted(crash)
      case Collected(records, errors) =>
        match outcomes[n - 1]
        case Crashed(crash) => Aborted(crash)
        case Parsed(record) => Collected(records + [record], errors)
        case Rejected(_) => Collected(records, errors + [IndexOf(lines, lines[n - 1])])
  }

  /** What `process_input` returns for a text: the sorted report and the error positions, or the exception. */
  function Process(text: string): Result<(seq<DisplayRecord>, seq<nat>), Crash> {
    var lines := NonEmptyLines(text);
    match Collect(lines, Outcomes(lines), |lines|)
    case Aborted(crash) => Failure(crash)
    case Collected(records, errors) => Success((SortByName(OrderedItems(records)), errors))
  }

  /** Once a line has raised, the run stays aborted with that exception. */
  lemma {:induction false} AbortedStays(lines: seq<string>, outcomes: seq<ParseOutcome>, m: nat, n: nat)
    requires m <= n <= |lines| == |outcomes| && Collect(lines, outcomes, m).Aborted?
    ensures Collect(lines, outcomes, n) == Collect(lines, outcomes, m)
  {
    if n > m {
      AbortedStays(lines, outcomes, m, n - 1);
    }
  }

  /** Each line gives one record or one error position. */
  lemma {:induction false} CollectCounts(lines: seq<string>, outcomes: seq<ParseOutcome>, n: nat)
    requires n <= |lines| == |outcomes| && Collect(lines, outcomes, n).Collected?
    ensures |Collect(lines, outcomes, n).records| + |Collect(lines, outcomes, n).errors| == n
  {
    if n > 0 {
      CollectCounts(lines, outcomes, n - 1);
    }
  }

  /**
   * Every error position points at a line with the text of a rejected line,
   * lies before the lines read so far, and is the first position holding that
   * text.
   */
  lemma {:induction false} ErrorsAreFirstPositions(lines: seq<string>, outcomes: seq<ParseOutcome>, n: nat)
    requires n <= |lines| == |outcomes| && Collect(lines, outcomes, n).Collected?
    ensures forall i :: 0 <= i < |Collect(lines, outcomes, n).errors| ==>
      var e := Collect(lines, outcomes, n).errors[i];
      e < n && (exists m :: e <= m < n && lines[m] == lines[e] && outcomes[m].Rejected?) &&
      forall k :: 0 <= k < e ==> lines[k] != lines[e]
  {
    if n > 0 {
      ErrorsAreFirstPositions(lines, outcomes, n - 1);
      var errors := Collect(lines, outcomes, n).errors;
      if outcomes[n - 1].Rejected? {
        var e := IndexOf(lines, lines[n - 1]);
        assert errors[|errors| - 1] == e;
        assert lines[n - 1] == lines[e] && outcomes[n - 1].Rejected?;
      }
    }
  }

  /** Every rejected line is reported, by the first position holding its text. */
  lemma {:induction false} RejectedLinesReported(lines: seq<string>, outcomes: seq<ParseOutcome>, n: nat, m: nat)
    requires m < n <= |lines| == |outcomes| && Collect(lines, outcomes, n).Collected? && outcomes[m].Rejected?
    ensures IndexOf(lines, lines[m]) in Collect(lines, outcomes, n).errors
  {
    if m < n - 1 {
      RejectedLinesReported(lines, outcomes, n - 1, m);
    }
  }

  /** Every parsed line's record is in the report. */
  lemma {:induction false} ParsedLinesCollected(lines: seq<string>, outcomes: seq<ParseOutcome>, n: nat, m: nat)
    requires m < n <= |lines| == |outcomes| && Collect(lines, outcomes, n).Collected? && outcomes[m].Parsed?
    ensures outcomes[m].record in Collect(lines, outcomes, n).records
  {
    if m < n - 1 {
      ParsedLinesCollected(lines, outcomes, n - 1, m);
    }
  }

  /** The run is aborted exactly when one of the lines read raises, and then with the first such exception. */
  lemma {:induction false} AbortedIffCrash(lines: seq<string>, outcomes: seq<ParseOutcome>, n: nat)
    requires n <= |lines| == |outcomes|
    ensures Collect(lines, outcomes, n).Aborted? <==> exists m :: 0 <= m < n && outcomes[m].Crashed?
    ensures Collect(lines, outcomes, n).Aborted? ==>
      exists m :: 0 <= m < n && outcomes[m].Crashed? && Collect(lines, outcomes, n).crash == outcomes[m].crash &&
        forall k :: 0 <= k < m ==> !outcomes[k].Crashed?
  {
    if n > 0 {
      AbortedIffCrash(lines, outcomes, n - 1);
      if Collect(lines, outcomes, n - 1).Collected? && outcomes[n - 1].Crashed? {
        assert Collect(lines, outcomes, n).crash == outcomes[n - 1].crash;
      }
    }
  }

  /** The records of the parsed outcomes, in line order. */
  function ParsedRecords(outcomes: seq<ParseOutcome>): seq<ContactRecord> {
    if |outcomes| == 0 then []
    else (if outcomes[0].Parsed? then [outcomes[0].record] else []) + ParsedRecords(outcomes[1..])
  }

  /**
   * For the rejected outcomes from line `k` on, in line order, the first
   * position of each line's text.
   */
  function RejectedPositions(lines: seq<string>, outcomes: seq<ParseOutcome>, k: nat): seq<nat>
    requires k <= |outcomes| <= |lines|
    decreases |outcomes| - k
  {
    if k == |outcomes| then []
    else (if outcomes[k].Rejected? then [IndexOf(lines, lines[k])] else []) + RejectedPositions(lines, outcomes, k + 1)
  }

  lemma {:induction false} ParsedRecordsSnoc(outcomes: seq<ParseOutcome>, o: ParseOutcome)
    ensures ParsedRecords(outcomes + [o]) == ParsedRecords(outcomes) + (if o.Parsed? then [o.record] else [])
  {
    var longer := outcomes + [o];
    var last := if o.Parsed? then [o.record] else [];
    if |outcomes| == 0 {
      assert longer[1..] == [];
      assert ParsedRecords(longer) == last + ParsedRecords([]);
    } else {
      var head := if outcomes[0].Parsed? then [outcomes[0].record] else [];
      assert longer[0] == outcomes[0] && longer[1..] == outcomes[1..] + [o];
      assert ParsedRecords(longer) == head + ParsedRecords(outcomes[1..] + [o]);
      ParsedRecordsSnoc(outcomes[1..], o);
      assert ParsedRecords(outcomes) == head + ParsedRecords(outcomes[1..]);
    }
  }

  lemma {:induction false} RejectedPositionsSnoc(lines: seq<string>, outcomes: seq<ParseOutcome>, o: ParseOutcome, k: nat)
    requires k <= |outcomes| < |lines|
    ensures RejectedPositions(lines, outcomes + [o], k) ==
      RejectedPositions(lines, outcomes, k) + (if o.Rejected? then [IndexOf(lines, lines[|outcomes|])] else [])
    decreases |outcomes| - k
  {
    var longer := outcomes + [o];
    if k < |outcomes| {
      assert longer[k] == outcomes[k];
      var head := if outcomes[k].Rejected? then [IndexOf(lines, lines[k])] else [];
      assert RejectedPositions(lines, longer, k) == head + RejectedPositions(lines, longer, k + 1);
      assert RejectedPositions(lines, outcomes, k) == head + RejectedPositions(lines, outcomes, k + 1);
      RejectedPositionsSnoc(lines, outcomes, o, k + 1);
    } else {
      assert longer[k] == o;
      assert RejectedPositions(lines, longer, k + 1) == [];
    }
  }

  /**
   * The loop goes line by line: its records are the parsed lines' records in
   * line order, and its errors are the rejected lines' first positions in line
   * order.
   */
  lemma {:induction false} CollectByLine(lines: seq<string>, outcomes: seq<ParseOutcome>, n: nat)
    requires n <= |lines| == |outcomes| && Collect(lines, outcomes, n).Collected?
    ensures Collect(lines, outcomes, n).records == ParsedRecords(outcomes[..n])
    ensures Collect(lines, outcomes, n).errors == RejectedPositions(lines, outcomes[..n], 0)
  {
    if n > 0 {
      CollectByLine(lines, outcomes, n - 1);
      assert outcomes[..n] == outcomes[..n - 1] + [outcomes[n - 1]];
      ParsedRecordsSnoc(outcomes[..n - 1], outcomes[n - 1]);
      RejectedPositionsSnoc(lines, outcomes[..n - 1], outcomes[n - 1], 0);
    }
  }

  /** `outcomes[i]` is what line `i` parses to. */
  predicate ParsedAs(lines: seq<string>, outcomes: seq<ParseOutcome>) {
    |outcomes| == |lines| &&
    forall i {:trigger ParseLine(lines[i])} :: 0 <= i < |lines| ==> outcomes[i] == ParseLine(lines[i])
  }

  /** `Parsers(line).get_data()` for line `i`: a fresh parser asked for its record once. */
  method ParseFresh(lines: seq<string>, i: nat, ghost outcomes: seq<ParseOutcome>) returns (r: GetDataResult)
    requires i < |lines| && ParsedAs(lines, outcomes)
    ensures r == Returned(outcomes[i])
  {
    var parser := new Parsers(lines[i]);
    r := parser.GetData();
    FillOutcome(lines[i]);
  }

  /**
   * The loop of `process_input` (parsers.py lines 167-176): a fresh parser per
   * line, its record appended to the results or the first position of its
   * text to the errors; an exception ends the loop.
   */
  method CollectLines(lines: seq<string>, ghost outcomes: seq<ParseOutcome>) returns (p: Progress)
    requires ParsedAs(lines, outcomes)
    ensures p == Collect(lines, outcomes, |lines|)
  {
    var results: seq<ContactRecord> := [];
    var errors: seq<nat> := [];
    for i := 0 to |lines|
      invariant Collect(lines, outcomes, i) == Collected(results, errors)
    {
      var data := ParseFresh(lines, i, outcomes);
      match data
      case Raised(crash) =>
        AbortedStays(lines, outcomes, i + 1, |lines|);
        return Aborted(crash);
      case Data(record) =>
        results := results + [record];
      case Empty =>
        errors := errors + [IndexOf(lines, lines[i])];
    }
    return Collected(results, errors);
  }

  /** `process_input`: parses every non-empty line and builds the sorted report. */
  method ProcessInput(text: string) returns (r: Result<(seq<DisplayRecord>, seq<nat>), Crash>)
    ensures r == Process(text)
  {
    var lines := NonEmptyLines(text);
    var progress := CollectLines(lines, Outcomes(lines));
    match progress
    case Aborted(crash) =>
      return Failure(crash);
    case Collected(results, errors) =>
      var output := new Output(results);
      var entries := output.GetResponse();
      assert [] + OrderedItems(results) == OrderedItems(results);
      return Success((entries, errors));
  }

  /** The payload `get_payload` renders as JSON: the report entries and the error positions. */
  datatype Payload = Payload(entries: seq<DisplayRecord>, errors: seq<nat>)

  /** `get_payload`, up to the JSON text: the two results of `process_input` under their keys. */
  method GetPayload(text: string) returns (r: Result<Payload, Crash>)
    ensures r.Success? <==> Process(text).Success?
    ensures r.Success? ==> r.value.entries == Process(text).value.0 && r.value.errors == Process(text).value.1
    ensures r.Failure? ==> r.error == Process(text).error
  {
    var processed := ProcessInput(text);
    match processed
    case Failure(crash) => return Failure(crash);
    case Success((entries, errors)) => return Success(Payload(entries, errors));
  }

  /**
   * The report holds one entry per parsed line, sorted by name with equal
   * names in line order, and one error position per rejected line.
   */
  lemma ProcessShape(text: string)
    requires Process(text).Success?
    ensures var lines := NonEmptyLines(text);
      var records := Collect(lines, Outcomes(lines), |lines|).records;
      var (entries, errors) := Process(text).value;
      |entries| + |errors| == |lines| && Sorted(entries) &&
      multiset(entries) == multiset(OrderedItems(records)) &&
      (forall key :: WithKey(entries, key) == WithKey(OrderedItems(records), key)) &&
      (forall m :: 0 <= m < |lines| && ParseLine(lines[m]).Rejected? ==> IndexOf(lines, lines[m]) in errors) &&
      (forall i :: 0 <= i < |errors| ==>
        errors[i] < |lines| && ParseLine(lines[errors[i]]).Rejected? &&
        forall k :: 0 <= k < errors[i] ==> lines[k] != lines[errors[i]])
  {
    var lines := NonEmptyLines(text);
    var outcomes := Outcomes(lines);
    var progress := Collect(lines, outcomes, |lines|);
    var records, errors := progress.records, progress.errors;
    assert Process(text).value == (SortByName(OrderedItems(records)), errors);
    CollectCounts(lines, outcomes, |lines|);
    ResponseShape(records);
    forall m | 0 <= m < |lines| && ParseLine(lines[m]).Rejected?
      ensures IndexOf(lines, lines[m]) in errors
    {
      assert outcomes[m] == ParseLine(lines[m]);
      RejectedLinesReported(lines, outcomes, |lines|, m);
    }
    ErrorsAreFirstPositions(lines, outcomes, |lines|);
  }

  /**
   * `process_input` reports every rejected line, in line order, by the first
   * position of its text, and its entries are the parsed lines' records sorted
   * by name, stably with respect to line order.
   */
  lemma ProcessByLine(text: string)
    requires Process(text).Success?
    ensures var lines := NonEmptyLines(text);
      var outcomes := Outcomes(lines);
      var items := OrderedItems(ParsedRecords(outcomes));
      var (entries, errors) := Process(text).value;
      errors == RejectedPositions(lines, outcomes, 0) && Sorted(entries) &&
      multiset(entries) == multiset(items) &&
      forall key :: WithKey(entries, key) == WithKey(items, key)
  {
    var lines := NonEmptyLines(text);
    var outcomes := Outcomes(lines);
    ProcessShape(text);
    CollectByLine(lines, outcomes, |lines|);
    assert outcomes[..|lines|] == outcomes;
  }

  /**
   * The shape of the payload example of the test suite: a layout C line, a
   * five-token line without a zip code, a raw layout B line and one word, both
   * records with ten-digit phones.
   */
  predicate ExampleShaped(booker: ContactRecord, kerri: seq<string>, james: ContactRecord, word: string) {
    WritableValues(booker) && |Digits(booker.phoneNumber)| == 10 &&
    |kerri| == 5 && PlainValues(kerri) &&
    WritableValues(james) && ' ' !in james.firstName && ' ' !in james.lastName &&
    |Digits(james.phoneNumber)| == 10 &&
    PlainValue(word)
  }

  function ExampleLines(booker: ContactRecord, kerri: seq<string>, james: ContactRecord, word: string): seq<string>
    requires |kerri| > 0
  {
    [CommaLine(Arrange(C, booker)), CommaLine(kerri), RawLineB(james), word]
  }

  /** A line of plain tokens, none of them a zip candidate, is reported with "zip code not found". */
  lemma PlainTokensRejected(tokens: seq<string>)
    requires |tokens| > 0 && |tokens| != 4 && PlainValues(tokens)
    ensures ParseLine(CommaLine(tokens)) == Rejected(ZipCodeNotFound)
  {
    TrimCommaLine(tokens);
    ParseViaTokens(CommaLine(tokens), tokens);
    ScanNoCandidate(tokens, |tokens|);
  }

  function ExampleOutcomes(booker: ContactRecord, james: ContactRecord): seq<ParseOutcome> {
    [Parsed(booker.(phoneNumber := Digits(booker.phoneNumber))), Rejected(ZipCodeNotFound),
     Parsed(james.(phoneNumber := Digits(james.phoneNumber))), Rejected(ZipCodeNotFound)]
  }

  /** Line 0 of the payload example, a layout C line, parses to its record with the phone cleaned. */
  lemma ExampleLineC(line: string, booker: ContactRecord)
    requires WritableValues(booker) && |Digits(booker.phoneNumber)| == 10
    requires line == CommaLine(Arrange(C, booker))
    ensures ParseLine(line) == Parsed(booker.(phoneNumber := Digits(booker.phoneNumber)))
  {
    LayoutTransparency(C, booker);
  }

  /** Line 2 of the payload example, a raw layout B line, parses to its record with the phone cleaned. */
  lemma ExampleLineB(line: string, james: ContactRecord)
    requires WritableValues(james) && ' ' !in james.firstName && ' ' !in james.lastName
    requires |Digits(james.phoneNumber)| == 10
    requires line == RawLineB(james)
    ensures ParseLine(line) == Parsed(james.(phoneNumber := Digits(james.phoneNumber)))
  {
    RawLayoutBTransparency(james);
  }

  /** How line `k` of the payload example parses. */
  lemma ExampleLineOutcome(lines: seq<string>, outcomes: seq<ParseOutcome>,
                           booker: ContactRecord, kerri: seq<string>, james: ContactRecord, word: string, k: nat)
    requires ExampleShaped(booker, kerri, james, word)
    requires lines == ExampleLines(booker, kerri, james, word)
    requires ParsedAs(lines, outcomes) && k < 4
    ensures outcomes[k] == ExampleOutcomes(booker, james)[k]
  {
    var line := lines[k];
    assert outcomes[k] == ParseLine(line);
    if k == 0 {
      ExampleLineC(line, booker);
    } else if k == 1 {
      PlainTokensRejected(kerri);
    } else if k == 2 {
      ExampleLineB(line, james);
    } else {
      assert line == CommaLine([word]);
      PlainTokensRejected([word]);
    }
  }

  /**
   * The payload example: the records of lines 0 and 2 (phones cleaned) are
   * collected, and positions 1 and 3 are reported as errors.
   */
  lemma PayloadExample(lines: seq<string>, outcomes: seq<ParseOutcome>,
                       booker: ContactRecord, kerri: seq<string>, james: ContactRecord, word: string)
    requires ExampleShaped(booker, kerri, james, word)
    requires lines == ExampleLines(booker, kerri, james, word)
    requires forall i, j :: 0 <= i < j < 4 ==> lines[i] != lines[j]
    requires ParsedAs(lines, outcomes)
    ensures Collect(lines, outcomes, 4) ==
      Collected([booker.(phoneNumber := Digits(booker.phoneNumber)), james.(phoneNumber := Digits(james.phoneNumber))], [1, 3])
  {
    ExampleLineOutcome(lines, outcomes, booker, kerri, james, word, 0);
    ExampleLineOutcome(lines, outcomes, booker, kerri, james, word, 1);
    ExampleLineOutcome(lines, outcomes, booker, kerri, james, word, 2);
    ExampleLineOutcome(lines, outcomes, booker, kerri, james, word, 3);
    var b := booker.(phoneNumber := Digits(booker.phoneNumber));
    var j := james.(phoneNumber := Digits(james.phoneNumber));
    assert Collect(lines, outcomes, 1) == Collected([b], []);
    assert IndexOf(lines, lines[1]) == 1;
    assert Collect(lines, outcomes, 2) == Collected([b], [1]);
    assert Collect(lines, outcomes, 3) == Collected([b, j], [1]);
    assert IndexOf(lines, lines[3]) == 3;
  }

  /** Two records whose last names are Washington and Murphy are reported Murphy first. */
  lemma ExampleReportOrder(booker: ContactRecord, james: ContactRecord)
    requires booker.lastName == "Washington" && james.lastName == "Murphy"
    ensures SortByName(OrderedItems([booker, james])) == [GetOrderedItem(james), GetOrderedItem(booker)]
  {
    LessAtFirstDifference("Murphy", "Washington", 0);
    var items := OrderedItems([booker, james]);
    assert items == [GetOrderedItem(booker), GetOrderedItem(james)];
    assert items[1..] == [GetOrderedItem(james)];
  }
}
