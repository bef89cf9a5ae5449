/**
 * The three positional layouts of a contact line and the table that picks a
 * layout from the position of the zip code.
 */
module Layouts {
  import opened Results

  /** The five keys of a parsed record. */
  datatype Field = FirstName | LastName | PhoneNumber | Color | ZipCode

  /**
   * A: `Lastname, Firstname, (703)-742-0996, Blue, 10013`
   * B: `Firstname, Lastname, Red, 11237, 703 955 0373` (after normalisation)
   * C: `Firstname, Lastname, 10013, 646 111 0101, Green`
   */
  datatype Layout = A | B | C

  /** FORMAT_A_KEY_TO_INDEX, FORMAT_B_KEY_TO_INDEX and FORMAT_C_KEY_TO_INDEX. */
  function FieldIndex(layout: Layout, f: Field): (i: nat)
    ensures i < 5
  {
    match layout
    case A =>
      (match f
       case FirstName => 1 case LastName => 0 case PhoneNumber => 2 case Color => 3 case ZipCode => 4)
    case B =>
      (match f
       case FirstName => 0 case LastName => 1 case PhoneNumber => 4 case Color => 2 case ZipCode => 3)
    case C =>
      (match f
       case FirstName => 0 case LastName => 1 case PhoneNumber => 3 case Color => 4 case ZipCode => 2)
  }

  /** The field a layout places at position `i`: the inverse of FieldIndex. */
  function FieldAt(layout: Layout, i: nat): (f: Field)
    requires i < 5
    ensures FieldIndex(layout, f) == i
  {
    match layout
    case A => [LastName, FirstName, PhoneNumber, Color, ZipCode][i]
    case B => [FirstName, LastName, Color, ZipCode, PhoneNumber][i]
    case C => [FirstName, LastName, ZipCode, PhoneNumber, Color][i]
  }

  /** Each table is a bijection between the five fields and the positions 0..4. */
  lemma FieldIndexBijective(layout: Layout, f: Field, g: Field)
    ensures FieldAt(layout, FieldIndex(layout, f)) == f
    ensures FieldIndex(layout, f) == FieldIndex(layout, g) ==> f == g
  {
  }

  /**
   * INDEX_ZIP_TO_FORMAT_KEY_INDEX.get(i): the layout whose zip code sits at
   * position `i`, and None for any other position.
   */
  function LayoutOfZipIndex(i: int): (r: Option<Layout>)
    ensures forall layout :: r == Some(layout) <==> FieldIndex(layout, ZipCode) == i
    ensures r.None? <==> i != 2 && i != 3 && i != 4
  {
    if i == 4 then Some(A) else if i == 3 then Some(B) else if i == 2 then Some(C) else None
  }
}
