/**
 * The report builder of parsers.py (class `Output`): every parsed record is
 * turned into a display record with its phone written DDD-DDD-DDDD, and the
 * display records are sorted by (last name, first name), equal keys keeping
 * their order, as Python's stable `sorted` does.
 */
module Report {
  import opened Strings
  import opened Parsing

  /** The ordered dictionary `get_ordered_item` builds, its keys in their fixed order. */
  datatype DisplayRecord = DisplayRecord(
    color: string, firstname: string, lastname: string, phonenumber: string, zipecode: string)

  /** `'{}-{}-{}'.format(number[:3], number[3:6], number[6:])`. */
  function FormatPhone(number: string): (r: string)
    ensures |r| == |number| + 2
    ensures |number| >= 6 ==> r[3] == '-' && r[7] == '-' && r[..3] + r[4..7] + r[8..] == number
  {
    var r := Slice(number, 0, 3) + "-" + Slice(number, 3, 6) + "-" + Slice(number, 6, |number|);
    assert |number| >= 6 ==>
      r[..3] == number[..3] && r[4..7] == number[3..6] && r[8..] == number[6..] &&
      number == number[..3] + number[3..6] + number[6..];
    r
  }

  /** A ten-digit phone is displayed in twelve characters, hyphens at positions 3 and 7. */
  lemma FormatTenDigits(number: string)
    requires |number| == 10
    ensures var r := FormatPhone(number);
      |r| == 12 && r[3] == '-' && r[7] == '-' &&
      r[..3] == number[..3] && r[4..7] == number[3..6] && r[8..] == number[6..]
  {
  }

  /** Dropping the hyphens of a displayed phone gives back its digits. */
  lemma {:induction false} FormatKeepsDigits(number: string)
    ensures Digits(FormatPhone(number)) == Digits(number)
  {
    var a, b, c := Slice(number, 0, 3), Slice(number, 3, 6), Slice(number, 6, |number|);
    assert Digits("-") == "";
    DigitsAppend(a + "-" + b + "-", c);
    DigitsAppend(a + "-" + b, "-");
    DigitsAppend(a + "-", b);
    DigitsAppend(a, "-");
    SlicePartition(number);
    DigitsAppend(a + b, c);
    DigitsAppend(a, b);
  }

  /** `get_ordered_item`: the display record of one parsed record. */
  function GetOrderedItem(item: ContactRecord): DisplayRecord {
    DisplayRecord(item.color, item.firstName, item.lastName, FormatPhone(item.phoneNumber), item.zipCode)
  }

  /**
   * A display record carries the record's names, color and zip code unchanged,
   * and its phone with the same digits.
   */
  lemma OrderedItemFields(item: ContactRecord)
    ensures var d := GetOrderedItem(item);
      d.firstname == item.firstName && d.lastname == item.lastName &&
      d.color == item.color && d.zipecode == item.zipCode &&
      Digits(d.phonenumber) == Digits(item.phoneNumber)
  {
    FormatKeepsDigits(item.phoneNumber);
  }

  /**
   * The display record of a parsed record (whose phone is ten digits) shows the
   * phone as DDD-DDD-DDDD, and dropping the hyphens gives the stored phone back.
   */
  lemma DisplayOfParsed(item: ContactRecord)
    requires |item.phoneNumber| == 10 && AllDigits(item.phoneNumber)
    ensures var d := GetOrderedItem(item);
      |d.phonenumber| == 12 && d.phonenumber[3] == '-' && d.phonenumber[7] == '-' &&
      Digits(d.phonenumber) == item.phoneNumber
  {
    FormatTenDigits(item.phoneNumber);
    FormatKeepsDigits(item.phoneNumber);
    DigitsOfDigits(item.phoneNumber);
  }

  /** The display records of a list of records, in the same order. */
  function OrderedItems(records: seq<ContactRecord>): (r: seq<DisplayRecord>)
    ensures |r| == |records| && forall i :: 0 <= i < |r| ==> r[i] == GetOrderedItem(records[i])
  {
    if |records| == 0 then [] else OrderedItems(records[..|records| - 1]) + [GetOrderedItem(records[|records| - 1])]
  }

  /** The sort key `(x['lastname'], x['firstname'])` compared as a Python tuple. */
  predicate KeyLess(a: DisplayRecord, b: DisplayRecord) {
    Less(a.lastname, b.lastname) || (a.lastname == b.lastname && Less(a.firstname, b.firstname))
  }

  predicate SameKey(a: DisplayRecord, b: DisplayRecord) {
    a.lastname == b.lastname && a.firstname == b.firstname
  }

  /** Two keys neither of which is less than the other are equal. */
  lemma KeyTotal(a: DisplayRecord, b: DisplayRecord)
    ensures !KeyLess(a, b) && !KeyLess(b, a) <==> SameKey(a, b)
  {
    if a.lastname != b.lastname {
      LessTotal(a.lastname, b.lastname);
    } else if a.firstname != b.firstname {
      LessTotal(a.firstname, b.firstname);
    } else {
      LessIrreflexive(a.lastname);
      LessIrreflexive(a.firstname);
    }
  }

  lemma KeyAsymmetric(a: DisplayRecord, b: DisplayRecord)
    requires KeyLess(a, b)
    ensures !KeyLess(b, a)
  {
    if Less(a.lastname, b.lastname) {
      LessAsymmetric(a.lastname, b.lastname);
    } else {
      LessIrreflexive(a.lastname);
      LessAsymmetric(a.firstname, b.firstname);
    }
  }

  /** "Not less than" is transitive: the order on keys is total. */
  lemma KeyNotLessTransitive(a: DisplayRecord, b: DisplayRecord, c: DisplayRecord)
    requires !KeyLess(a, b) && !KeyLess(b, c)
    ensures !KeyLess(a, c)
  {
    KeyTotal(a, b);
    KeyTotal(b, c);
    if KeyLess(b, a) && KeyLess(c, b) {
      KeyLessTransitive(c, b, a);
      KeyAsymmetric(c, a);
    } else if KeyLess(b, a) {
      // b and c share their key, so a < c would mean a < b
      KeyAsymmetric(b, a);
    }
  }

  lemma KeyLessTransitive(a: DisplayRecord, b: DisplayRecord, c: DisplayRecord)
    requires KeyLess(a, b) && KeyLess(b, c)
    ensures KeyLess(a, c)
  {
    if Less(a.lastname, b.lastname) && Less(b.lastname, c.lastname) {
      LessTransitive(a.lastname, b.lastname, c.lastname);
    } else if Less(a.firstname, b.firstname) && Less(b.firstname, c.firstname) && a.lastname == c.lastname {
      LessTransitive(a.firstname, b.firstname, c.firstname);
    }
  }

  /** Ascending by key: no record is less than one before it. */
  predicate Sorted(s: seq<DisplayRecord>) {
    forall i, j :: 0 <= i < j < |s| ==> !KeyLess(s[j], s[i])
  }

  /** The records of `s` whose key equals `key`'s, in their order in `s`. */
  function WithKey(s: seq<DisplayRecord>, key: DisplayRecord): (r: seq<DisplayRecord>)
    ensures |r| <= |s|
    ensures forall i :: 0 <= i < |r| ==> SameKey(r[i], key)
  {
    if |s| == 0 then []
    else if SameKey(s[0], key) then [s[0]] + WithKey(s[1..], key)
    else WithKey(s[1..], key)
  }

  /**
   * `x` placed in front of the first record that is not less than it: in a
   * sorted list, after every smaller key and before every equal or larger one.
   */
  function Insert(x: DisplayRecord, s: seq<DisplayRecord>): (r: seq<DisplayRecord>)
    ensures multiset(r) == multiset(s) + multiset{x}
    ensures |r| == |s| + 1
  {
    if |s| == 0 || !KeyLess(s[0], x) then [x] + s
    else
      assert s == [s[0]] + s[1..];
      [s[0]] + Insert(x, s[1..])
  }

  /** `sorted(records, key=lambda x: (x['lastname'], x['firstname']))`, as an insertion sort. */
  function SortByName(s: seq<DisplayRecord>): (r: seq<DisplayRecord>)
    ensures multiset(r) == multiset(s)
    ensures |r| == |s|
  {
    if |s| == 0 then []
    else
      assert s == [s[0]] + s[1..];
      Insert(s[0], SortByName(s[1..]))
  }

  lemma {:induction false} InsertSorted(x: DisplayRecord, s: seq<DisplayRecord>)
    requires Sorted(s)
    ensures Sorted(Insert(x, s))
  {
    if |s| == 0 || !KeyLess(s[0], x) {
      forall k | 0 <= k < |s| ensures !KeyLess(s[k], x) {
        if k > 0 {
          KeyNotLessTransitive(s[k], s[0], x);
        }
      }
    } else {
      InsertSorted(x, s[1..]);
      var rest := Insert(x, s[1..]);
      KeyAsymmetric(s[0], x);
      forall k | 0 <= k < |rest| ensures !KeyLess(rest[k], s[0]) {
        assert rest[k] in multiset(rest);
        assert rest[k] == x || rest[k] in s[1..];
      }
    }
  }

  /** The result of the sort is ascending by key. */
  lemma {:induction false} SortByNameSorted(s: seq<DisplayRecord>)
    ensures Sorted(SortByName(s))
  {
    if |s| > 0 {
      SortByNameSorted(s[1..]);
      InsertSorted(s[0], SortByName(s[1..]));
    }
  }

  /** Inserting `x` puts it before every record of equal key and does not reorder the others. */
  lemma {:induction false} InsertWithKey(x: DisplayRecord, s: seq<DisplayRecord>, key: DisplayRecord)
    ensures WithKey(Insert(x, s), key) == if SameKey(x, key) then [x] + WithKey(s, key) else WithKey(s, key)
  {
    if |s| == 0 || !KeyLess(s[0], x) {
      assert ([x] + s)[1..] == s;
    } else {
      InsertWithKey(x, s[1..], key);
      assert ([s[0]] + Insert(x, s[1..]))[1..] == Insert(x, s[1..]);
      if SameKey(x, key) {
        LessIrreflexive(x.firstname);
        LessIrreflexive(x.lastname);
        assert !SameKey(s[0], key);
      }
    }
  }

  /** Stability: the records of any one key keep their input order. */
  lemma {:induction false} SortByNameStable(s: seq<DisplayRecord>, key: DisplayRecord)
    ensures WithKey(SortByName(s), key) == WithKey(s, key)
  {
    if |s| > 0 {
      SortByNameStable(s[1..], key);
      InsertWithKey(s[0], SortByName(s[1..]), key);
    }
  }

  /** An already ascending list is left as it is. */
  lemma {:induction false} SortByNameOfSorted(s: seq<DisplayRecord>)
    requires Sorted(s)
    ensures SortByName(s) == s
  {
    if |s| > 0 {
      assert Sorted(s[1..]);
      SortByNameOfSorted(s[1..]);
      assert s == [s[0]] + s[1..];
    }
  }

  /** Sorting twice is sorting once. */
  lemma SortByNameIdempotent(s: seq<DisplayRecord>)
    ensures SortByName(SortByName(s)) == SortByName(s)
  {
    SortByNameSorted(s);
    SortByNameOfSorted(SortByName(s));
  }

  /**
   * The report builder. `data` is its own copy of the records (a Dafny
   * sequence is a value, so the caller's list cannot change through it).
   */
  class Output {
    const data: seq<ContactRecord>
    var response: seq<DisplayRecord>

    constructor(data: seq<ContactRecord>)
      ensures this.data == data && response == []
    {
      this.data := data;
      response := [];
    }

    /**
     * `get_response`: appends the display record of every record to
     * `response`, then replaces `response` by its sorted copy and returns it.
     */
    method GetResponse() returns (r: seq<DisplayRecord>)
      modifies this
      ensures response == SortByName(old(response) + OrderedItems(data)) && r == response
    {
      for i := 0 to |data|
        invariant response == old(response) + OrderedItems(data[..i])
      {
        assert data[..i + 1][..i] == data[..i];
        response := response + [GetOrderedItem(data[i])];
      }
      assert data[..|data|] == data;
      response := SortByName(response);
      r := response;
    }
  }

  /**
   * What `get_response` returns on a fresh report builder: the display records
   * of the input, ascending by name, equal names in input order.
   */
  lemma ResponseShape(records: seq<ContactRecord>)
    ensures var response := SortByName(OrderedItems(records));
      Sorted(response) && multiset(response) == multiset(OrderedItems(records)) &&
      forall key :: WithKey(response, key) == WithKey(OrderedItems(records), key)
  {
    SortByNameSorted(OrderedItems(records));
    forall key ensures WithKey(SortByName(OrderedItems(records)), key) == WithKey(OrderedItems(records), key) {
      SortByNameStable(OrderedItems(records), key);
    }
  }

  /**
   * The report of the two "Doe" records the test suite uses: Jane comes before
   * John although she is listed second.
   */
  lemma DoeExample()
    ensures var john := DisplayRecord("blue", "John", "Doe", "212-123-4567", "10013");
      var jane := DisplayRecord("red", "Jane", "Doe", "212-123-4567", "10013");
      SortByName([john, jane]) == [jane, john]
  {
    var john := DisplayRecord("blue", "John", "Doe", "212-123-4567", "10013");
    var jane := DisplayRecord("red", "Jane", "Doe", "212-123-4567", "10013");
    LessIrreflexive("Doe");
    LessAtFirstDifference("Jane", "John", 1);
    assert KeyLess(jane, john);
    KeyAsymmetric(jane, john);
  }
}
