/**
 * The line classifier and validator of parsers.py (class `Parsers`): a line
 * is split on commas, a four-token line has its "First Last" token split in
 * two, every token is stripped, the layout is chosen from where a five-digit
 * token sits, and the fields are copied out through that layout's table.
 */
module Parsing {
  import opened Results
  import opened Strings
  import opened Layouts

  /** The `data` dictionary of a parser: one string per key. */
  datatype ContactRecord = ContactRecord(
    firstName: string, lastName: string, phoneNumber: string, color: string, zipCode: string)

  /** The dictionary `__init__` starts from: every field empty. */
  const EmptyRecord := ContactRecord("", "", "", "", "")

  /** `record[key]`. */
  function Get(record: ContactRecord, f: Field): string {
    match f
    case FirstName => record.firstName
    case LastName => record.lastName
    case PhoneNumber => record.phoneNumber
    case Color => record.color
    case ZipCode => record.zipCode
  }

  /** Why a line is reported as invalid. */
  datatype Reason = ZipCodeNotFound | PhoneNumberInvalid

  /** The exceptions `get_data` raises instead of reporting the line. */
  datatype Crash =
    | NameNotTwoWords  // ValueError: `f_name, l_name = name.split(' ')` on a name without exactly one blank
    | IndexOutOfRange  // IndexError: a layout index past the end of the token list

  /** What parsing one line comes to. */
  datatype ParseOutcome = Parsed(record: ContactRecord) | Rejected(reason: Reason) | Crashed(crash: Crash)

  /** What `get_data` hands back: the filled dictionary, `{}`, or an exception. */
  datatype GetDataResult = Data(record: ContactRecord) | Empty | Raised(crash: Crash)

  /** The warning logged for an invalid line. */
  function Diagnostic(reason: Reason, line: string): (m: string)
    ensures |m| > |line| + 1 && m[|m| - |line| - 1..|m| - 1] == line && m[|m| - 1] == '.'
  {
    match reason
    case ZipCodeNotFound => "Zip code not found in data: " + line + "."
    case PhoneNumberInvalid => "Phone number doesn't meet requirements: " + line + "."
  }

  /** A warning names its reason and its line: different warnings come from different causes. */
  lemma DiagnosticInjective(r1: Reason, l1: string, r2: Reason, l2: string)
    requires Diagnostic(r1, l1) == Diagnostic(r2, l2)
    ensures r1 == r2 && l1 == l2
  {
    var m := Diagnostic(r1, l1);
    assert m[0] == Diagnostic(r2, l2)[0];
    assert r1 == r2;
    var k := |m| - |l1| - 1;
    assert m[..k] == Diagnostic(r1, "")[..k];
    assert |l1| == |l2|;
  }

  /** A zip code candidate: all digits and exactly five characters long. */
  predicate IsZipCandidate(t: string) {
    |t| == 5 && AllDigits(t)
  }

  /**
   * `normalize_format_b`: the first token is removed and its two blank-separated
   * words are put in front of the remaining tokens.
   */
  function NormalizeFormatB(tokens: seq<string>): (r: Result<seq<string>, Crash>)
    requires |tokens| > 0
    ensures r.Failure? <==> Count(tokens[0], ' ') != 1
    ensures r.Failure? ==> r.error == NameNotTwoWords
    ensures r.Success? ==> |r.value| == |tokens| + 1 && r.value[2..] == tokens[1..]
  {
    var name := tokens[0];
    var parts := Split(name, ' ');
    if |parts| != 2 then Failure(NameNotTwoWords)
    else Success([parts[0], parts[1]] + tokens[1..])
  }

  /**
   * B-raw normalisation: a name token with one blank becomes its two words,
   * neither holding a blank, which joined by a blank give the name back.
   */
  lemma NormalizedName(tokens: seq<string>)
    requires |tokens| > 0 && NormalizeFormatB(tokens).Success?
    ensures var r := NormalizeFormatB(tokens).value;
      r[0] + " " + r[1] == tokens[0] && ' ' !in r[0] && ' ' !in r[1]
  {
    SplitOnce(tokens[0], ' ');
    SplitPiecesFree(tokens[0], ' ');
  }

  /** `[item.strip() for item in data]`. */
  function TrimAll(ts: seq<string>): seq<string> {
    seq(|ts|, i requires 0 <= i < |ts| => Trim(ts[i]))
  }

  /** The token list built from the comma pieces: format B normalised, every token stripped. */
  function TokensOf(pieces: seq<string>): (r: Result<seq<string>, Crash>)
    requires |pieces| > 0
    ensures r.Success? ==> |r.value| > 0 && |r.value| != 4
  {
    if |pieces| == 4 then
      match NormalizeFormatB(pieces)
      case Failure(e) => Failure(e)
      case Success(normalized) => Success(TrimAll(normalized))
    else
      Success(TrimAll(pieces))
  }

  /** The token list `get_data` scans. */
  function Tokens(line: string): (r: Result<seq<string>, Crash>)
    ensures r.Success? ==> |r.value| > 0 && |r.value| != 4
  {
    TokensOf(Split(line, ','))
  }

  /**
   * The layout chosen after scanning the first `n` tokens: each zip candidate
   * replaces the previous choice by the layout of the FIRST position holding
   * its text, or by None when that position has no layout.
   */
  function Scan(tokens: seq<string>, n: nat): (r: Option<Layout>)
    requires n <= |tokens|
    ensures r.Some? ==>
      FieldIndex(r.value, ZipCode) < |tokens| && IsZipCandidate(tokens[FieldIndex(r.value, ZipCode)])
  {
    if n == 0 then None
    else if IsZipCandidate(tokens[n - 1]) then LayoutOfZipIndex(IndexOf(tokens, tokens[n - 1]))
    else Scan(tokens, n - 1)
  }

  function DetectLayout(tokens: seq<string>): Option<Layout> {
    Scan(tokens, |tokens|)
  }

  /**
   * The scan loop of `get_data`: every zip candidate met overwrites the choice
   * with the layout of the first position holding its text.
   */
  method ScanLayout(tokens: seq<string>) returns (layout: Option<Layout>)
    ensures layout == DetectLayout(tokens)
  {
    layout := None;
    for i := 0 to |tokens|
      invariant layout == Scan(tokens, i)
    {
      if IsZipCandidate(tokens[i]) {
        var zipIndex := IndexOf(tokens, tokens[i]);
        layout := LayoutOfZipIndex(zipIndex);
      }
    }
  }

  /** The last zip candidate decides the layout, through the first position holding its text. */
  lemma {:induction false} ScanLastCandidate(tokens: seq<string>, n: nat, j: nat)
    requires j < n <= |tokens|
    requires IsZipCandidate(tokens[j])
    requires forall k :: j < k < n ==> !IsZipCandidate(tokens[k])
    ensures Scan(tokens, n) == LayoutOfZipIndex(IndexOf(tokens, tokens[j]))
  {
    if n - 1 != j {
      ScanLastCandidate(tokens, n - 1, j);
    }
  }

  /** Without a zip candidate no layout is found. */
  lemma {:induction false} ScanNoCandidate(tokens: seq<string>, n: nat)
    requires n <= |tokens|
    requires forall k :: 0 <= k < n ==> !IsZipCandidate(tokens[k])
    ensures Scan(tokens, n) == None
  {
    if n > 0 {
      ScanNoCandidate(tokens, n - 1);
    }
  }

  /**
   * The position looked up is the first one holding the candidate's text: a
   * zip code repeated further on is read as standing at its first position.
   */
  lemma FirstPositionDecides(tokens: seq<string>, i: nat, j: nat)
    requires i <= j < |tokens| && tokens[i] == tokens[j] && IsZipCandidate(tokens[j])
    requires forall k :: 0 <= k < i ==> tokens[k] != tokens[j]
    requires forall k :: j < k < |tokens| ==> !IsZipCandidate(tokens[k])
    ensures DetectLayout(tokens) == LayoutOfZipIndex(i)
  {
    ScanLastCandidate(tokens, |tokens|, j);
  }

  /**
   * A zip candidate whose text first stands past position 4 resets the choice:
   * when it is the last candidate, the line is reported as having no zip code.
   */
  lemma LaterCandidateResets(tokens: seq<string>, j: nat)
    requires j < |tokens| && IsZipCandidate(tokens[j])
    requires forall k :: 0 <= k < 5 && k < |tokens| ==> tokens[k] != tokens[j]
    requires forall k :: j < k < |tokens| ==> !IsZipCandidate(tokens[k])
    ensures Classify(tokens) == Rejected(ZipCodeNotFound)
  {
    ScanLastCandidate(tokens, |tokens|, j);
    assert IndexOf(tokens, tokens[j]) >= 5;
  }

  /** The values the `update_*` calls write, read through the layout's table. */
  function Extract(tokens: seq<string>, layout: Layout): ContactRecord
    requires |tokens| >= 5
  {
    ContactRecord(
      tokens[FieldIndex(layout, FirstName)],
      tokens[FieldIndex(layout, LastName)],
      Digits(tokens[FieldIndex(layout, PhoneNumber)]),
      tokens[FieldIndex(layout, Color)],
      tokens[FieldIndex(layout, ZipCode)])
  }

  /** What `get_data` makes of the token list once it has been built. */
  function Classify(tokens: seq<string>): (r: ParseOutcome)
    ensures r.Parsed? ==>
      |r.record.phoneNumber| == 10 && AllDigits(r.record.phoneNumber) && IsZipCandidate(r.record.zipCode)
    ensures r.Crashed? ==> r.crash == IndexOutOfRange
  {
    match DetectLayout(tokens)
    case None => Rejected(ZipCodeNotFound)
    case Some(layout) =>
      if |tokens| < 5 then Crashed(IndexOutOfRange)
      else
        var record := Extract(tokens, layout);
        if |record.phoneNumber| != 10 then Rejected(PhoneNumberInvalid) else Parsed(record)
  }

  /** `Parsers(line).get_data()` as a value. */
  function ParseLine(line: string): ParseOutcome {
    match Tokens(line)
    case Failure(e) => Crashed(e)
    case Success(tokens) => Classify(tokens)
  }

  /**
   * Success shape: a parsed record holds, field by field, the stripped token at
   * the position the detected layout's table gives, the phone reduced to its digits.
   */
  lemma ParsedShape(line: string) returns (tokens: seq<string>, layout: Layout)
    requires ParseLine(line).Parsed?
    ensures Tokens(line) == Success(tokens) && DetectLayout(tokens) == Some(layout)
    ensures |tokens| >= 5 && IsZipCandidate(tokens[FieldIndex(layout, ZipCode)])
    ensures forall f: Field :: f != PhoneNumber ==> Get(ParseLine(line).record, f) == tokens[FieldIndex(layout, f)]
    ensures ParseLine(line).record.phoneNumber == Digits(tokens[FieldIndex(layout, PhoneNumber)])
  {
    tokens := Tokens(line).value;
    layout := DetectLayout(tokens).value;
  }

  /**
   * The dictionary `get_data` has filled in when it reads all five fields: the
   * tokens were built, a layout was found and every index of its table exists.
   */
  function Fill(line: string): (r: Option<ContactRecord>)
    ensures r.Some? ==> ParseLine(line).Parsed? || ParseLine(line) == Rejected(PhoneNumberInvalid)
  {
    match Tokens(line)
    case Failure(_) => None
    case Success(tokens) =>
      match DetectLayout(tokens)
      case None => None
      case Some(layout) => if |tokens| < 5 then None else Some(Extract(tokens, layout))
  }

  /** Once the tokens are built, the filled dictionary depends on them alone. */
  lemma FillViaTokens(line: string, tokens: seq<string>)
    requires Tokens(line) == Success(tokens)
    ensures Fill(line) ==
      if DetectLayout(tokens).Some? && |tokens| >= 5 then Some(Extract(tokens, DetectLayout(tokens).value)) else None
  {
  }

  /** The phone check alone separates a parsed line from a phone rejection once all fields are read. */
  lemma FillOutcome(line: string)
    ensures ParseLine(line).Parsed? <==> Fill(line).Some? && |Fill(line).value.phoneNumber| == 10
    ensures ParseLine(line) == Rejected(PhoneNumberInvalid) <==>
      Fill(line).Some? && |Fill(line).value.phoneNumber| != 10
    ensures ParseLine(line).Parsed? ==> ParseLine(line).record == Fill(line).value
  {
  }

  /** A line whose tokens hold no zip candidate is reported with "zip code not found". */
  lemma NoZipCandidateRejected(line: string)
    requires Tokens(line).Success?
    requires forall k :: 0 <= k < |Tokens(line).value| ==> !IsZipCandidate(Tokens(line).value[k])
    ensures ParseLine(line) == Rejected(ZipCodeNotFound)
  {
    ScanNoCandidate(Tokens(line).value, |Tokens(line).value|);
  }

  /** The name-unpacking crash happens exactly on four-token lines whose first token lacks exactly one blank. */
  lemma NameCrash(line: string)
    ensures ParseLine(line) == Crashed(NameNotTwoWords) <==>
      |Split(line, ',')| == 4 && Count(Split(line, ',')[0], ' ') != 1
  {
  }

  /**
   * The index crash happens exactly on three-token lists whose zip candidate
   * selects layout C (zip at index 2, phone looked up at index 3); token lists
   * from a line never have four entries.
   */
  lemma IndexCrash(tokens: seq<string>)
    requires |tokens| != 4
    ensures Classify(tokens) == Crashed(IndexOutOfRange) <==> |tokens| == 3 && DetectLayout(tokens) == Some(C)
  {
    var layout := DetectLayout(tokens);
    if layout.Some? && |tokens| < 5 {
      assert FieldIndex(layout.value, ZipCode) < |tokens|;
    }
  }

  /**
   * In a token list that does not have four entries and holds the layout's
   * zip code position, both name positions exist, and all five exist exactly
   * when the phone's does.
   */
  lemma ReadableFields(layout: Layout, n: nat)
    requires n != 4 && FieldIndex(layout, ZipCode) < n
    ensures FieldIndex(layout, FirstName) < n && FieldIndex(layout, LastName) < n
    ensures FieldIndex(layout, PhoneNumber) < n <==> n >= 5
    ensures n >= 5 ==> forall f :: FieldIndex(layout, f) < n
  {
  }

  /** Once the tokens are built, the rest of `get_data` depends on them alone. */
  lemma ParseViaTokens(line: string, tokens: seq<string>)
    requires Tokens(line) == Success(tokens)
    ensures ParseLine(line) == Classify(tokens)
  {
  }

  /** A field value as it may stand in a line: no comma, no surrounding blanks, not zip-like. */
  predicate PlainValue(t: string) {
    ',' !in t && Trimmed(t) && !IsZipCandidate(t)
  }

  /** Values that can be written in any layout: plain text fields and a five-digit zip code. */
  predicate WritableValues(values: ContactRecord) {
    PlainValue(values.firstName) && PlainValue(values.lastName) && PlainValue(values.phoneNumber) &&
    PlainValue(values.color) && IsZipCandidate(values.zipCode)
  }

  /** What a line holding these five values parses to: the record with its phone cleaned, or a phone rejection. */
  function Expected(values: ContactRecord): ParseOutcome {
    if |Digits(values.phoneNumber)| == 10 then Parsed(values.(phoneNumber := Digits(values.phoneNumber)))
    else Rejected(PhoneNumberInvalid)
  }

  /** The five values put in the order a layout writes them. */
  function Arrange(layout: Layout, values: ContactRecord): (tokens: seq<string>)
    ensures |tokens| == 5
    ensures forall f: Field :: tokens[FieldIndex(layout, f)] == Get(values, f)
  {
    seq(5, i requires 0 <= i < 5 => Get(values, FieldAt(layout, i)))
  }

  /** Plain values that may follow the five fields of a line. */
  predicate PlainValues(extra: seq<string>) {
    forall i :: 0 <= i < |extra| ==> PlainValue(extra[i])
  }

  /**
   * Once a layout is found for five arranged values (and anything after them),
   * the fields are read through the layout's table and the phone's digit count
   * alone decides the outcome.
   */
  lemma ClassifyArranged(layout: Layout, values: ContactRecord, extra: seq<string>)
    requires DetectLayout(Arrange(layout, values) + extra) == Some(layout)
    ensures Classify(Arrange(layout, values) + extra) == Expected(values)
  {
    var tokens := Arrange(layout, values) + extra;
    assert forall f :: tokens[FieldIndex(layout, f)] == Get(values, f);
    assert Extract(tokens, layout).(phoneNumber := values.phoneNumber) == values;
  }

  /**
   * In arranged writable values followed by plain values only the zip code's
   * position holds a zip candidate, so its layout is chosen.
   */
  lemma DetectArranged(layout: Layout, values: ContactRecord, extra: seq<string>)
    requires WritableValues(values) && PlainValues(extra)
    ensures DetectLayout(Arrange(layout, values) + extra) == Some(layout)
  {
    var arranged := Arrange(layout, values);
    var tokens := arranged + extra;
    var z := FieldIndex(layout, ZipCode);
    forall k | z < k < |tokens| ensures !IsZipCandidate(tokens[k]) {
      if k < 5 {
        FieldIndexBijective(layout, FieldAt(layout, k), ZipCode);
      } else {
        assert tokens[k] == extra[k - 5];
      }
    }
    ScanLastCandidate(tokens, |tokens|, z);
    assert IndexOf(tokens, tokens[z]) == z by {
      var i := IndexOf(tokens, tokens[z]);
      FieldIndexBijective(layout, FieldAt(layout, i), ZipCode);
    }
  }

  /** A line written as the test suite writes them: the values joined by ", ". */
  function CommaLine(values: seq<string>): string
    requires |values| > 0
  {
    if |values| == 1 then values[0] else values[0] + ", " + CommaLine(values[1..])
  }

  /** Splitting such a line on commas gives the first value unchanged and the others behind one blank. */
  lemma {:induction false} SplitCommaLine(values: seq<string>)
    requires |values| > 0
    requires forall i :: 0 <= i < |values| ==> ',' !in values[i]
    ensures |Split(CommaLine(values), ',')| == |values|
    ensures Split(CommaLine(values), ',')[0] == values[0]
    ensures forall i :: 1 <= i < |values| ==> Split(CommaLine(values), ',')[i] == " " + values[i]
  {
    if |values| == 1 {
      SplitNoSeparator(values[0], ',');
    } else {
      var rest := CommaLine(values[1..]);
      var tail := Split(rest, ',');
      SplitCommaLine(values[1..]);
      assert CommaLine(values) == values[0] + [','] + (" " + rest);
      SplitAppend(values[0], ',', " " + rest);
      assert (" " + rest)[1..] == rest;
      assert Split(" " + rest, ',') == [" " + tail[0]] + tail[1..];
    }
  }

  /** ... and stripping every piece gives the values back. */
  lemma TrimCommaLine(values: seq<string>)
    requires |values| > 0
    requires forall i :: 0 <= i < |values| ==> ',' !in values[i] && Trimmed(values[i])
    ensures TrimAll(Split(CommaLine(values), ',')) == values
  {
    SplitCommaLine(values);
    var pieces := Split(CommaLine(values), ',');
    forall i | 1 <= i < |values| ensures Trim(pieces[i]) == values[i] {
      TrimPadded(values[i]);
    }
  }

  /** Writable values arranged in a layout and followed by plain values, as a list of tokens. */
  lemma ArrangedTokens(layout: Layout, values: ContactRecord, extra: seq<string>)
    requires WritableValues(values) && PlainValues(extra)
    ensures var tokens := Arrange(layout, values) + extra;
      forall i :: 0 <= i < |tokens| ==> ',' !in tokens[i] && Trimmed(tokens[i])
  {
    var tokens := Arrange(layout, values) + extra;
    forall i | 0 <= i < |tokens| ensures ',' !in tokens[i] && Trimmed(tokens[i]) {
      if i < 5 {
        assert tokens[i] == Get(values, FieldAt(layout, i));
      } else {
        assert tokens[i] == extra[i - 5];
      }
    }
  }

  /**
   * Layout transparency, layouts A, B (normalised) and C: the same five values
   * written in any layout parse to the same outcome.
   */
  lemma LayoutTransparency(layout: Layout, values: ContactRecord)
    requires WritableValues(values)
    ensures ParseLine(CommaLine(Arrange(layout, values))) == Expected(values)
  {
    ExtraTokensAccepted(layout, values, []);
    assert Arrange(layout, values) + [] == Arrange(layout, values);
  }

  /**
   * The token count is never checked: plain values after the five fields are
   * ignored, and the line parses as the five fields alone.
   */
  lemma ExtraTokensAccepted(layout: Layout, values: ContactRecord, extra: seq<string>)
    requires WritableValues(values) && PlainValues(extra)
    ensures ParseLine(CommaLine(Arrange(layout, values) + extra)) == Expected(values)
  {
    var tokens := Arrange(layout, values) + extra;
    ArrangedTokens(layout, values, extra);
    TrimCommaLine(tokens);
    ParseViaTokens(CommaLine(tokens), tokens);
    DetectArranged(layout, values, extra);
    ClassifyArranged(layout, values, extra);
  }

  /** The raw layout B line: the name as one "First Last" token, then color, zip and phone. */
  function RawLineB(values: ContactRecord): string {
    CommaLine([values.firstName + " " + values.lastName] + Arrange(B, values)[2..])
  }

  /** A "First Last" name token with one blank is split into its two words. */
  lemma NormalizeTwoWords(first: string, last: string, rest: seq<string>)
    requires ' ' !in first && ' ' !in last
    ensures NormalizeFormatB([first + " " + last] + rest) == Success([first, last] + rest)
  {
    var name := first + " " + last;
    assert name == first + [' '] + last;
    CountSeparatedOnce(first, ' ', last);
    SplitAppend(first, ' ', last);
    SplitNoSeparator(last, ' ');
    assert ([name] + rest)[1..] == rest;
  }

  /** Stripping the split name words and the blank-prefixed pieces gives the tokens. */
  lemma TrimNamedPieces(pieces: seq<string>, tokens: seq<string>)
    requires |tokens| == 5 && forall i :: 0 <= i < 5 ==> Trimmed(tokens[i])
    requires |pieces| == 4 && forall i :: 1 <= i < 4 ==> pieces[i] == " " + tokens[i + 1]
    ensures TrimAll([tokens[0], tokens[1]] + pieces[1..]) == tokens
  {
    var normalized := [tokens[0], tokens[1]] + pieces[1..];
    forall i | 0 <= i < 5 ensures Trim(normalized[i]) == tokens[i] {
      if i >= 2 {
        assert normalized[i] == pieces[i - 1];
        TrimPadded(tokens[i]);
      }
    }
  }

  /** Four comma pieces "First Last", " x", " y", " z" become the tokens First, Last, x, y, z. */
  lemma TokensOfNamedPieces(pieces: seq<string>, tokens: seq<string>)
    requires |tokens| == 5 && forall i :: 0 <= i < 5 ==> Trimmed(tokens[i])
    requires ' ' !in tokens[0] && ' ' !in tokens[1]
    requires |pieces| == 4 && pieces[0] == tokens[0] + " " + tokens[1]
    requires forall i :: 1 <= i < 4 ==> pieces[i] == " " + tokens[i + 1]
    ensures TokensOf(pieces) == Success(tokens)
  {
    assert pieces == [pieces[0]] + pieces[1..];
    NormalizeTwoWords(tokens[0], tokens[1], pieces[1..]);
    TrimNamedPieces(pieces, tokens);
  }

  /** A raw layout B line is normalised to the layout B tokens. */
  lemma TokensRawLineB(values: ContactRecord)
    requires WritableValues(values)
    requires ' ' !in values.firstName && ' ' !in values.lastName
    ensures Tokens(RawLineB(values)) == Success(Arrange(B, values))
  {
    var tokens := Arrange(B, values);
    var raw := [values.firstName + " " + values.lastName] + tokens[2..];
    forall i | 0 <= i < 4 ensures ',' !in raw[i] {
      if i > 0 { assert raw[i] == tokens[i + 1]; }
    }
    SplitCommaLine(raw);
    forall i | 0 <= i < 5 ensures Trimmed(tokens[i]) {
      assert tokens[i] == Get(values, FieldAt(B, i));
    }
    TokensOfNamedPieces(Split(CommaLine(raw), ','), tokens);
  }

  /** Layout transparency, raw layout B: the four-token form parses like the other layouts. */
  lemma RawLayoutBTransparency(values: ContactRecord)
    requires WritableValues(values)
    requires ' ' !in values.firstName && ' ' !in values.lastName
    ensures ParseLine(RawLineB(values)) == Expected(values)
  {
    TokensRawLineB(values);
    ParseViaTokens(RawLineB(values), Arrange(B, values));
    DetectArranged(B, values, []);
    ClassifyArranged(B, values, []);
    assert Arrange(B, values) + [] == Arrange(B, values);
  }

  /**
   * A parser for one line: the `data` dictionary and `invalid` flag that the
   * `update_*` methods set step by step, and the warnings it has logged.
   */
  class Parsers {
    const line: string
    var data: ContactRecord
    var invalid: bool
    var log: seq<string>

    constructor(line: string)
      ensures this.line == line && data == EmptyRecord && !invalid && log == []
    {
      this.line := line;
      data := EmptyRecord;
      invalid := false;
      log := [];
    }

    method UpdateFirstName(name: string)
      modifies this
      ensures data == old(data).(firstName := name) && invalid == old(invalid) && log == old(log)
    {
      data := data.(firstName := name);
    }

    method UpdateLastName(name: string)
      modifies this
      ensures data == old(data).(lastName := name) && invalid == old(invalid) && log == old(log)
    {
      data := data.(lastName := name);
    }

    /** Stores the digits of `number`; fewer or more than ten marks the line invalid and logs why. */
    method UpdatePhoneNumber(number: string)
      modifies this
      ensures data == old(data).(phoneNumber := Digits(number))
      ensures invalid == (old(invalid) || |Digits(number)| != 10)
      ensures log == old(log) + (if |Digits(number)| != 10 then [Diagnostic(PhoneNumberInvalid, line)] else [])
    {
      var clean := Digits(number);
      if |clean| != 10 {
        log := log + [Diagnostic(PhoneNumberInvalid, line)];
        invalid := true;
      }
      data := data.(phoneNumber := clean);
    }

    method UpdateZipCode(zip: string)
      modifies this
      ensures data == old(data).(zipCode := zip) && invalid == old(invalid) && log == old(log)
    {
      data := data.(zipCode := zip);
    }

    method UpdateColor(color: string)
      modifies this
      ensures data == old(data).(color := color) && invalid == old(invalid) && log == old(log)
    {
      data := data.(color := color);
    }

    /**
     * The field reads of `get_data` (parsers.py lines 108-126): each field is
     * read at the position the layout's table gives and written through its
     * `update_*` method, in the source's order; reading the phone raises when
     * its position lies past the end of the tokens.
     */
    method ReadFields(tokens: seq<string>, table: Layout) returns (crashed: bool)
      requires |tokens| != 4 && FieldIndex(table, ZipCode) < |tokens|
      modifies this
      ensures crashed <==> |tokens| < 5
      ensures crashed ==> data == old(data).(firstName := tokens[FieldIndex(table, FirstName)],
                                             lastName := tokens[FieldIndex(table, LastName)])
      ensures crashed ==> invalid == old(invalid) && log == old(log)
      ensures !crashed ==> data == Extract(tokens, table)
      ensures !crashed ==> invalid == (old(invalid) || |data.phoneNumber| != 10)
      ensures !crashed ==>
        log == old(log) + (if |data.phoneNumber| != 10 then [Diagnostic(PhoneNumberInvalid, line)] else [])
    {
      ReadableFields(table, |tokens|);
      UpdateFirstName(tokens[FieldIndex(table, FirstName)]);
      UpdateLastName(tokens[FieldIndex(table, LastName)]);
      var phoneIndex := FieldIndex(table, PhoneNumber);
      if phoneIndex >= |tokens| {
        return true;
      }
      UpdatePhoneNumber(tokens[phoneIndex]);
      UpdateZipCode(tokens[FieldIndex(table, ZipCode)]);
      UpdateColor(tokens[FieldIndex(table, Color)]);
      return false;
    }

    /**
     * `get_data`: builds the tokens, scans them for the layout, then reads the
     * fields through the layout's table. The outcome is the one `ParseLine`
     * describes; a crash leaves the object half updated.
     */
    method GetData() returns (r: GetDataResult)
      modifies this
      ensures ParseLine(line).Crashed? ==> r == Raised(ParseLine(line).crash)
      ensures ParseLine(line) == Rejected(ZipCodeNotFound) ==>
        r == Empty && invalid && data == old(data) && log == old(log) + [Diagnostic(ZipCodeNotFound, line)]
      ensures ParseLine(line) == Rejected(PhoneNumberInvalid) ==>
        r == Empty && invalid && log == old(log) + [Diagnostic(PhoneNumberInvalid, line)]
      ensures ParseLine(line).Parsed? ==>
        invalid == old(invalid) && log == old(log) && r == (if invalid then Empty else Data(data))
      ensures Fill(line).Some? ==> data == Fill(line).value
      ensures r.Data? ==> !invalid && r.record == data
    {
      // parsers.py lines 86-92: split on commas, normalise a four-piece line, strip every token.
      var built := Tokens(line);
      if built.Failure? {
        return Raised(built.error);
      }
      var tokens := built.value;
      ParseViaTokens(line, tokens);
      FillViaTokens(line, tokens);

      var layout := ScanLayout(tokens);
      if layout.None? {
        assert Classify(tokens) == Rejected(ZipCodeNotFound);
        log := log + [Diagnostic(ZipCodeNotFound, line)];
        invalid := true;
        return Empty;
      }

      var crashed := ReadFields(tokens, layout.value);
      if crashed {
        return Raised(IndexOutOfRange);
      }
      r := if invalid then Empty else Data(data);
    }
  }

  /** What `get_data` hands back for a line it has just been given. */
  function Returned(outcome: ParseOutcome): (r: GetDataResult)
    ensures r.Data? <==> outcome.Parsed?
    ensures r.Raised? <==> outcome.Crashed?
    ensures r.Data? ==> r.record == outcome.record
    ensures r.Raised? ==> r.crash == outcome.crash
  {
    match outcome
    case Parsed(record) => Data(record)
    case Rejected(_) => Empty
    case Crashed(crash) => Raised(crash)
  }
}
