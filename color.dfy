/**
 * `AnnotColor`: the `C` entry of an annotation (section 12.5.2, Table 164 of
 * ISO 32000-1), an array of 0, 1, 3 or 4 numbers whose length selects the
 * colour space.
 */
module Color {

  /** `AnnotColor::AnnotColorSpace`. */
  datatype ColorSpace = Transparent | Gray | RGB | CMYK

  /** The enumerator's numeric value, which is the number of components. */
  function ComponentCount(space: ColorSpace): (n: nat)
    ensures n <= 4 && n != 2
  {
    match space
    case Transparent => 0
    case Gray => 1
    case RGB => 3
    case CMYK => 4
  }

  /** The space whose component count is `n`, if there is one. */
  function SpaceForCount(n: int): (s: ColorSpace)
    requires n == 0 || n == 1 || n == 3 || n == 4
    ensures ComponentCount(s) == n
  {
    if n == 0 then Transparent
    else if n == 1 then Gray
    else if n == 3 then RGB
    else CMYK
  }

  /** Each space is the only one with its component count. */
  lemma SpaceCountRoundTrip(space: ColorSpace)
    ensures SpaceForCount(ComponentCount(space)) == space
  {
  }

  predicate IsComponentCount(n: int) {
    n == 0 || n == 1 || n == 3 || n == 4
  }

  /**
   * The components kept from the numbers of a `C` array. A length that names
   * no colour space falls back to an empty (transparent) colour.
   */
  function ParsedComponents(entries: seq<real>): (c: seq<real>)
    ensures IsComponentCount(|c|)
    ensures IsComponentCount(|entries|) ==> c == entries
    ensures !IsComponentCount(|entries|) ==> c == []
  {
    if IsComponentCount(|entries|) then entries else []
  }

  class AnnotColor {
    var values: array<real>
    var length: int

    ghost predicate Valid()
      reads this
    {
      values.Length == length && IsComponentCount(length)
    }

    /** The components, in order. */
    ghost function Components(): seq<real>
      reads this, values
    {
      values[..]
    }

    /** `AnnotColor()`: no components, the transparent colour. */
    constructor ()
      ensures Valid() && fresh(values)
      ensures Components() == []
    {
      values := new real[0];
      length := 0;
    }

    /** `AnnotColor(Array *)`, given the numbers of the array. */
    constructor FromArray(entries: seq<real>)
      ensures Valid() && fresh(values)
      ensures Components() == ParsedComponents(entries)
    {
      var c := ParsedComponents(entries);
      values := new real[|c|](i requires 0 <= i < |c| => c[i]);
      length := |c|;
    }

    /** `getSpace()`: the space is the one whose value is the component count. */
    function GetSpace(): (space: ColorSpace)
      reads this
      requires Valid()
      ensures ComponentCount(space) == length
    {
      SpaceForCount(length)
    }

    /** `getValue(i)`: the i-th component; only components that exist can be read. */
    function GetValue(i: int): (v: real)
      reads this, values
      requires Valid()
      requires 0 <= i < length
      ensures v == Components()[i]
    {
      values[i]
    }
  }
}
