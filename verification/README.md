# Contact-line parser: a verified model

This project models `parsers.py`, the core of a small tool that reads free-text contact lines and
turns them into a JSON report. Each line holds a first name, a last name, a phone number, a color
and a five-digit zip code. The line comes in one of three positional layouts:

- A: `Lastname, Firstname, (703)-742-0996, Blue, 10013`
- B: `Firstname Lastname, Red, 11237, 703 955 0373` (four comma pieces, normalised to five)
- C: `Firstname, Lastname, 10013, 646 111 0101, Green`

The tool finds the layout from the position of the zip code. It reads the fields through that
layout's index table and cleans the phone to its digits. A line without a usable zip code, or
whose phone does not have exactly ten digits, is invalid. `process_input` parses every non-empty
line. It collects the good records and records each bad line by the first position holding its
text. `Output` turns the records into display records, with the phone written `DDD-DDD-DDDD`, and
sorts them stably by `(lastname, firstname)`.

The model is split into these files:

- `results.dfy`: `Option` and `Result`.
- `strings.dfy`: the parts of Python's `str` and `list` the code relies on:
  - `split` and `strip`;
  - the digit filter;
  - `list.index`;
  - clamped slicing;
  - string order by code point, as `Less`.
- `layouts.dfy`: the three index tables and the zip-position table.
- `parsers.dfy`: the `Parsers` class, in two parts.
  - `ParseLine` states what `get_data` makes of a line.
  - `class Parsers` keeps the `data`, `invalid` and `log` fields. Its `update_*` methods and
    `GetData` change them step by step, and `GetData` is proved against `ParseLine`.
- `report.dfy`: `get_ordered_item`, a stable insertion sort that specifies Python's `sorted`,
  and the `Output` class.
- `pipeline.dfy`: the loop of `process_input`, its specification `Process`, the bookkeeping
  lemmas, and `get_payload` up to the JSON text.

Some behaviours of the code are reproduced exactly, whatever a reader might expect:

- Every zip candidate met in the scan overwrites the layout choice. The last candidate wins, and
  a candidate whose text first stands at a position outside 2 to 4 resets the choice to none.
- The position looked up is `data.index(item)`, the first token with the same text.
- The token count is never checked: lines with six or more tokens are accepted.
- Two inputs raise an exception instead of being reported as invalid. Both are modelled as a
  separate outcome, `Crashed`:
  - a four-piece line whose name piece does not hold exactly one blank (`NameNotTwoWords`);
  - a three-token line whose zip code selects layout C, so the phone is read at index 3
    (`IndexOutOfRange`).

  The exception ends `process_input`, so the whole run is `Failure(crash)`.

## Model

| member | source | states |
|---|---|---|
| Layouts.FieldIndex | parsers.py:29-51 | the three key-to-index tables; every index is below 5 |
| Layouts.FieldAt | parsers.py:29-51 | the field a layout puts at a position; it is the inverse of the table |
| Layouts.FieldIndexBijective | parsers.py:29-51 | each layout's table is a bijection between the five keys and positions 0..4 |
| Layouts.LayoutOfZipIndex | parsers.py:53-58 | zip index 4 gives A, 3 gives B, 2 gives C, exactly; any other index gives None (`dict.get`) |
| Strings.IsSpace | parsers.py:92 | the characters `strip()` removes here and at line 162 (ASCII only); `Trim`, `TrimCut` and `Trimmed` state what stripping by them leaves |
| Strings.Trim | parsers.py:92 | `strip()`: the result has no surrounding whitespace, is no longer than the input, and a stripped string is left unchanged; `TrimCut` pins down which stretch is kept |
| Strings.TrimCut | parsers.py:92 | the result is the stretch of the input that starts after its leading whitespace, and only whitespace lies outside it on both sides; with the result having no surrounding whitespace, this fixes it |
| Strings.TrimPadded | parsers.py:92 | stripping a token behind the blank after a comma gives the token back |
| Strings.Split | parsers.py:86 | `split(c)` gives one more piece than there are separators |
| Strings.SplitPiecesFree | parsers.py:77 | no piece of a split holds the separator |
| Strings.SplitJoin | parsers.py:86 | splitting a joined list whose pieces hold no separator gives the list back |
| Strings.JoinSplit | parsers.py:86 | joining the pieces of a split gives the string back |
| Strings.SplitOnce | parsers.py:77 | a string with exactly one separator splits into the two parts around it |
| Strings.IsDigit | parsers.py:141 | `isdigit()` on one character, here and in the zip test at line 98 (ASCII digits only); `IsZipCandidate`, `DigitsOfNonDigit` and `DigitsOfDigits` state what it keeps and drops |
| Strings.Digits | parsers.py:140-142 | the phone-cleaning comprehension keeps only digits and never lengthens the string; with `DigitsOfNonDigit`, `DigitsOfDigits` and `DigitsAppend` it is determined character by character |
| Strings.DigitsOfNonDigit | parsers.py:140-142 | a character that is not a digit is dropped |
| Strings.DigitsOfDigits | parsers.py:140-142 | cleaning a string of digits leaves it unchanged |
| Strings.DigitsAppend | parsers.py:140-142 | cleaning distributes over concatenation |
| Strings.IndexOf | parsers.py:99 | `list.index`: the position holds the value and no earlier position does |
| Strings.Slice | parsers.py:226 | Python slicing clamps out-of-range bounds: in range it is the Dafny slice, an upper bound past the end stops at the end, and a start at or past the end or at or past the upper bound gives the empty string |
| Strings.SlicePartition | parsers.py:226 | the three slices `[:3]`, `[3:6]`, `[6:]` put together give the string back |
| Strings.Less | parsers.py:212-213 | Python's `<` on strings, by code point, inside the `(lastname, firstname)` key; `LessIrreflexive`, `LessTransitive`, `LessTotal`, `LessAsymmetric` and `LessAtFirstDifference` state that it is the lexicographic strict total order |
| Strings.LessIrreflexive | parsers.py:212-213 | no string is less than itself |
| Strings.LessTransitive | parsers.py:212-213 | string order is transitive |
| Strings.LessTotal | parsers.py:212-213 | two different strings are ordered one way or the other |
| Strings.LessAsymmetric | parsers.py:212-213 | string order is asymmetric |
| Strings.LessAtFirstDifference | parsers.py:212-213 | a string comes first when it is a proper prefix, or when it is smaller at the first difference |
| Parsing.Diagnostic | parsers.py:103-104 | a warning message ends with the line it is about and a full stop |
| Parsing.DiagnosticInjective | parsers.py:103-147 | different warnings come from different reasons or different lines |
| Parsing.NormalizeFormatB | parsers.py:71-79 | it fails exactly when the name piece does not hold exactly one blank, and then with NameNotTwoWords; on success it gives one more token and the pieces after the name unchanged and in order |
| Parsing.NormalizedName | parsers.py:76-79 | on success the two words joined by a blank give the name back, and neither word holds a blank |
| Parsing.NormalizeTwoWords | parsers.py:71-90 | a "First Last" piece becomes `[First, Last] + rest` |
| Parsing.TokensOf | parsers.py:86-92 | from the comma pieces: a four-piece list has its name split (or raises NameNotTwoWords), then every token is stripped; a list built is never empty and never has four entries |
| Parsing.TrimAll | parsers.py:92 | the comprehension that strips each token; `TrimCommaLine` and `NonEmptyLines` state that it gives back stripped values and yields stripped lines |
| Parsing.Tokens | parsers.py:86-92 | a token list that is built is never empty and never has four entries |
| Parsing.IsZipCandidate | parsers.py:98 | a zip candidate is exactly five characters, all digits; `Scan` and `NoZipCandidateRejected` use it |
| Parsing.DetectLayout | parsers.py:95-100 | the layout chosen by the last zip candidate; its meaning is stated by `ScanLayout`, `ScanLastCandidate`, `ScanNoCandidate` and `FirstPositionDecides` |
| Parsing.Scan | parsers.py:95-100 | when the scan has chosen a layout, that layout's zip position exists and holds a zip candidate |
| Parsing.ScanLayout | parsers.py:95-100 | the scan loop ends with the layout `DetectLayout` specifies |
| Parsing.ScanLastCandidate | parsers.py:96-100 | the last zip candidate decides the layout, through the first position holding its text |
| Parsing.ScanNoCandidate | parsers.py:96-102 | without a zip candidate no layout is found |
| Parsing.FirstPositionDecides | parsers.py:99-100 | a repeated zip code is read as standing at its first position |
| Parsing.LaterCandidateResets | parsers.py:99-106 | when the last candidate's text first stands past position 4, the line is rejected with "zip code not found" |
| Parsing.Classify | parsers.py:95-128 | a parsed record has a ten-digit phone of digits and a zip candidate as zip code; the only crash after tokenising is IndexOutOfRange |
| Parsing.ParsedShape | parsers.py:108-128 | on success each field is the stripped token at the position the detected layout gives, and the phone is that token's digits |
| Parsing.Extract | parsers.py:108-126 | the five fields read at the table's positions; `ParsedShape` and `ClassifyArranged` state that each field is the token the layout places there |
| Parsing.ParseLine | parsers.py:81-128 | the outcome of `get_data` on one line; `ParsedShape`, `FillOutcome`, `NameCrash`, `IndexCrash`, `LayoutTransparency` and `ExtraTokensAccepted` state what it gives |
| Parsing.Fill | parsers.py:108-126 | when all five fields are read, the line is parsed or rejected for its phone |
| Parsing.FillOutcome | parsers.py:108-149 | a line parses exactly when all fields are read and the cleaned phone has 10 digits; it is rejected for its phone exactly when the cleaned phone has any other length; the record is the filled dictionary |
| Parsing.NoZipCandidateRejected | parsers.py:95-106 | tokens without a zip candidate give "zip code not found" |
| Parsing.NameCrash | parsers.py:76-90 | the name-unpacking crash happens exactly on four-piece lines whose first piece lacks exactly one blank |
| Parsing.IndexCrash | parsers.py:117 | the index crash happens exactly on three-token lists for which layout C is chosen |
| Parsing.ReadableFields | parsers.py:108-126 | once the zip position exists, both name positions exist, and the phone position exists exactly when there are at least five tokens |
| Parsing.Arrange | parsers.py:29-51 | five values in a layout's order: each value sits at the position the table gives it |
| Parsing.ClassifyArranged | parsers.py:108-128 | once the layout is found, the outcome of arranged values is the record with its phone cleaned, or a phone rejection |
| Parsing.DetectArranged | parsers.py:95-100 | in arranged values, the zip code's position decides the layout, whatever plain values follow |
| Parsing.SplitCommaLine | parsers.py:86 | a line written `v0, v1, ...` splits into `v0` and the others behind one blank |
| Parsing.TrimCommaLine | parsers.py:86-92 | splitting and stripping such a line gives the values back |
| Parsing.ArrangedTokens | parsers.py:86-92 | arranged values and plain extras hold no comma and no surrounding blank |
| Parsing.LayoutTransparency | parsers.py:29-128 | the same five values written in layout A, B (five tokens) or C parse to the same outcome: the record with its phone cleaned, or a phone rejection |
| Parsing.ExtraTokensAccepted | parsers.py:86-128 | extra tokens that hold no comma, no surrounding whitespace and no zip candidate are ignored, so such a line of six or more tokens parses like its five fields |
| Parsing.TrimNamedPieces | parsers.py:89-92 | stripping the split name and the blank-led pieces gives the five tokens |
| Parsing.TokensOfNamedPieces | parsers.py:86-92 | a raw B line's four pieces become the five layout-B tokens |
| Parsing.TokensRawLineB | parsers.py:86-92 | a raw B line is tokenised to the layout-B arrangement of its values |
| Parsing.RawLayoutBTransparency | parsers.py:71-128 | a raw B line (four pieces, "First Last") parses like the same values in any other layout |
| Parsing.Parsers.constructor | parsers.py:60-69 | a new parser holds its line, an empty record, `invalid` false and no warnings |
| Parsing.Parsers.UpdateFirstName | parsers.py:130-132 | writes only the first name |
| Parsing.Parsers.UpdateLastName | parsers.py:134-136 | writes only the last name |
| Parsing.Parsers.UpdatePhoneNumber | parsers.py:138-149 | stores the digits of the number; any length other than 10 sets `invalid` and logs the phone warning; the digits are stored either way |
| Parsing.Parsers.UpdateZipCode | parsers.py:151-153 | writes only the zip code |
| Parsing.Parsers.UpdateColor | parsers.py:155-157 | writes only the color |
| Parsing.Parsers.ReadFields | parsers.py:108-126 | reads the fields in source order; it raises exactly when there are fewer than five tokens, and then after writing only the names; otherwise `data` is the table's extraction, with `invalid` and the log set by the phone check |
| Parsing.Parsers.GetData | parsers.py:81-128 | the result is the one `ParseLine` specifies: a crash is raised; "zip code not found" returns `{}`, sets `invalid` and logs that warning, leaving `data` untouched; a phone rejection returns `{}`, sets `invalid` and logs the phone warning; a parsed line leaves `invalid` and the log alone. A non-empty result means `invalid` is false and the result is `data`, and the filled dictionary is `Fill` |
| Parsing.Returned | parsers.py:128 | a fresh parser returns a record exactly for a parsed line, and then that line's record; it raises exactly for a crashing one, and then with that line's exception |
| Report.FormatPhone | parsers.py:225-226 | two characters longer than the number; with at least six characters, hyphens at positions 3 and 7 and the number in between |
| Report.FormatTenDigits | parsers.py:225-226 | a ten-digit phone is shown as `d[0..3]-d[3..6]-d[6..10]`, twelve characters long |
| Report.FormatKeepsDigits | parsers.py:225-226 | removing the hyphens gives back the phone's digits |
| Report.GetOrderedItem | parsers.py:217-234 | the display record of one record; `OrderedItemFields` and `DisplayOfParsed` state its fields |
| Report.OrderedItemFields | parsers.py:217-234 | a display record carries the names, color and zip code unchanged and the phone with the same digits |
| Report.DisplayOfParsed | parsers.py:217-234 | the display of a ten-digit phone is 12 characters long, with hyphens at 3 and 7, and its digits are the stored phone |
| Report.OrderedItems | parsers.py:210-211 | one display record per record, in the same order |
| Report.KeyLess | parsers.py:212-213 | the tuple order on `(lastname, firstname)`; `KeyTotal`, `KeyAsymmetric` and `KeyLessTransitive` state that it is a strict total order on keys |
| Report.Sorted | parsers.py:212-213 | no later record has a smaller key than an earlier one; `SortByNameSorted` and `SortByNameOfSorted` relate it to the sort |
| Report.KeyTotal | parsers.py:212-213 | two keys neither of which is less than the other are equal |
| Report.KeyAsymmetric | parsers.py:212-213 | the tuple order on keys is asymmetric |
| Report.KeyNotLessTransitive | parsers.py:212-213 | "not less than" on keys is transitive |
| Report.KeyLessTransitive | parsers.py:212-213 | the tuple order on keys is transitive |
| Report.WithKey | parsers.py:212-213 | the records of one key, in their order |
| Report.Insert | parsers.py:212-213 | inserting adds exactly one record: the multiset gains `x` |
| Report.SortByName | parsers.py:212-213 | the sort is a permutation of its input |
| Report.InsertSorted | parsers.py:212-213 | inserting into an ascending list keeps it ascending |
| Report.SortByNameSorted | parsers.py:212-213 | the sort's result is ascending by `(lastname, firstname)` |
| Report.InsertWithKey | parsers.py:212-213 | insertion puts `x` before records of equal key and does not reorder the others |
| Report.SortByNameStable | parsers.py:212-213 | stability: the records of each key keep their input order |
| Report.SortByNameOfSorted | parsers.py:212-213 | an ascending list is left unchanged |
| Report.SortByNameIdempotent | parsers.py:212-213 | sorting twice is sorting once |
| Report.Output.constructor | parsers.py:205-207 | a new report builder holds its own copy of the records and an empty response |
| Report.Output.GetResponse | parsers.py:209-215 | appends one display record per record to `response`, then replaces `response` by its sorted copy and returns it |
| Report.ResponseShape | parsers.py:205-215 | on a fresh builder the response is ascending by name, a permutation of the display records, and stable for every key |
| Report.DoeExample | tests.py:128-158 | the two Doe records are reported Jane before John |
| Pipeline.DropEmpty | parsers.py:164-165 | keeps exactly the non-empty lines, each as often as it occurs (the multiset of lines with `""` removed) |
| Pipeline.DropEmptyAppend | parsers.py:164-165 | filtering distributes over concatenation, so the lines keep their order |
| Pipeline.NonEmptyLines | parsers.py:161-165 | every line parsed is non-empty and stripped |
| Pipeline.SingleLine | parsers.py:161-165 | a text without a newline is one stripped line |
| Pipeline.Collect | parsers.py:167-176 | the progress of the loop over the lines; `CollectByLine` fixes its records and errors line by line in line order, and `AbortedIffCrash` fixes when and with what it aborts |
| Pipeline.Process | parsers.py:160-180 | what `process_input` returns; `ProcessShape` states its shape and `ProcessInput` ties the method to it |
| Pipeline.Outcomes | parsers.py:169-170 | one outcome per line |
| Pipeline.AbortedStays | parsers.py:169-170 | once a line has raised, the run stays aborted with that exception |
| Pipeline.CollectCounts | parsers.py:169-176 | the records and error positions together number the lines read |
| Pipeline.ParsedRecords | parsers.py:172-173 | the records of the parsed lines, in line order, defined from the front of the list independently of the loop |
| Pipeline.RejectedPositions | parsers.py:175-176 | for each rejected line, in line order, the first position holding its text, defined from the front independently of the loop |
| Pipeline.ParsedRecordsSnoc | parsers.py:172-173 | one more outcome adds its record at the end exactly when it is parsed |
| Pipeline.RejectedPositionsSnoc | parsers.py:175-176 | one more outcome adds its line's first position at the end exactly when it is rejected |
| Pipeline.CollectByLine | parsers.py:167-176 | while no line has raised, the loop's records are exactly `ParsedRecords` of the outcomes read and its errors exactly `RejectedPositions`, both in line order |
| Pipeline.ErrorsAreFirstPositions | parsers.py:175-176 | every error position lies among the lines read, names a rejected line's text, and is the first position holding that text |
| Pipeline.RejectedLinesReported | parsers.py:175-176 | every rejected line is reported by the first position of its text |
| Pipeline.ParsedLinesCollected | parsers.py:172-173 | every parsed line's record is collected |
| Pipeline.AbortedIffCrash | parsers.py:169-170 | the run aborts exactly when a line raises, with the first such exception |
| Pipeline.ParseFresh | parsers.py:170 | a fresh parser's `get_data` returns what the line's outcome prescribes |
| Pipeline.CollectLines | parsers.py:167-176 | the loop ends with the progress `Collect` specifies |
| Pipeline.ProcessInput | parsers.py:160-180 | `process_input` returns `Process(text)` |
| Pipeline.GetPayload | parsers.py:183-192 | the payload has `process_input`'s entries and errors, and fails exactly when it raises |
| Pipeline.ProcessByLine | parsers.py:160-180 | the errors are every rejected line's first position in line order; the entries are the parsed lines' display records, sorted by name, as a permutation, and stable with respect to line order |
| Pipeline.ProcessShape | parsers.py:160-180 | records plus errors number the non-empty lines; the entries are sorted, a permutation and stable; every rejected line is reported; every error is the first position of a rejected line's text |
| Pipeline.PlainTokensRejected | parsers.py:95-106 | a line of plain tokens without a zip candidate gives "zip code not found" |
| Pipeline.ExampleLineC | tests.py:113 | a layout C line of writable values parses to its record with the phone cleaned |
| Pipeline.ExampleLineB | tests.py:115 | a raw layout B line ("First Last", color, zip, phone) parses to its record with the phone cleaned |
| Pipeline.ExampleLineOutcome | tests.py:113-117 | how each line of the payload example parses |
| Pipeline.PayloadExample | tests.py:87-125 | for lines shaped like the payload test (a layout C line, a five-token line without a zip code, a raw B line, one word), lines 0 and 2 are collected with cleaned phones and the errors are `[1, 3]` |
| Pipeline.ExampleReportOrder | tests.py:87-108 | Murphy is reported before Washington |

## Left out

- The `logging.log` calls are not modelled as a global logger. Each warning is appended to a
  `log` field of the parser object, with the message text the code formats.
- `json.dumps(payload, indent=2)` and the `OrderedDict` mechanics are library behaviour.
  - `get_payload` is modelled up to the pair of entries and errors.
  - A display record is a datatype whose fields keep the fixed key order.
- `copy.deepcopy` in `Output.__init__`: Dafny sequences are values, so the caller's list cannot
  change through the copy. The model holds no separate proof of it.
- Aliasing of returned lists is not modelled: `get_response` returns the `response` list itself
  (parsers.py:215) and `get_data` returns the `data` dictionary itself (parsers.py:128), so a
  caller holding that object sees later appends (parsers.py:211) or writes to it. The model
  returns values. `process_input` builds a fresh parser for each line and a fresh `Output`
  for each call, so its result does not depend on this.
- `str.isdigit` and `str.strip` are restricted to ASCII: the digits `0` to `9`, and the blank,
  TAB, LF, VT, FF, CR and the separators FS, GS, RS and US (0x1C to 0x1F), which Python's
  `str.strip` also removes. Non-ASCII digits and whitespace (such as NEL, the no-break space or
  the Unicode spaces) are not modelled.
- `parsefile.py` (argument parsing, file reading, printing) is I/O around `get_payload` and is not
  part of this model.
- Parsing.Parsers.GetData: after an exception, the contract does not state the half-updated
  object in full. `ReadFields` states which fields are written before the phone read raises.
- Parsing.Parsers.GetData: the token list is computed by the functions `Tokens` and `TrimAll`
  rather than by a loop. Splitting and list comprehensions are expressions in the source.
- Pipeline.PayloadExample: the lemma is stated for any values shaped like the test's lines: a
  layout C line, a line without a zip code, a raw B line and a single word. The test's own literal
  strings are not evaluated, so the model does not show that they have that shape.
- Three behaviours of the code that a reader might not expect; the model keeps each as written:
  - `get_data` never checks the number of tokens, so a line of six or more tokens whose tokens
    after the fifth hold no zip candidate is parsed from its first five (parsers.py:89-128,
    `Parsing.ExtraTokensAccepted`); a zip candidate among the extra tokens is the last one seen
    and decides the layout through its first position (parsers.py:96-100), which past position 4
    gives "zip code not found" (`Parsing.LaterCandidateResets`);
  - a four-piece line whose name is not two words raises `ValueError` at the unpacking on
    parsers.py:77, and a three-token line for which layout C is chosen raises `IndexError` when
    it reads the phone number at index 3 on parsers.py:117; neither is caught, so `process_input` raises rather than
    reporting the line (`Parsing.NameCrash`, `Parsing.IndexCrash`, `Pipeline.AbortedIffCrash`);
  - a rejected line is recorded by `lines.index(line)` on parsers.py:176, the first position
    holding its text, not its own position (`Pipeline.ErrorsAreFirstPositions`).
