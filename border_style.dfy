/**
 * `AnnotBorderStyle`: an immutable snapshot of how a border is drawn (type,
 * width, dash pattern, RGB colour), with its own style enumeration
 * `AnnotBorderType` that lists the styles of `AnnotBorder::AnnotBorderStyle`
 * in the same order.
 */
module BorderStyle {
  import Border

  /** `AnnotBorderType`, in declaration order. */
  datatype AnnotBorderType =
    | AnnotBorderSolid
    | AnnotBorderDashed
    | AnnotBorderBeveled
    | AnnotBorderInset
    | AnnotBorderUnderlined

  /** The enumerator's numeric value: its position in the declaration. */
  function TypeOrdinal(t: AnnotBorderType): (n: nat)
    ensures n < 5
  {
    match t
    case AnnotBorderSolid => 0
    case AnnotBorderDashed => 1
    case AnnotBorderBeveled => 2
    case AnnotBorderInset => 3
    case AnnotBorderUnderlined => 4
  }

  /** The border type at the same position as a border style. */
  function TypeOfStyle(style: Border.BorderStyle): (t: AnnotBorderType)
    ensures TypeOrdinal(t) == Border.StyleOrdinal(style)
  {
    match style
    case Solid => AnnotBorderSolid
    case Dashed => AnnotBorderDashed
    case Beveled => AnnotBorderBeveled
    case Inset => AnnotBorderInset
    case Underlined => AnnotBorderUnderlined
  }

  /** The border style at the same position as a border type. */
  function StyleOfType(t: AnnotBorderType): (style: Border.BorderStyle)
    ensures Border.StyleOrdinal(style) == TypeOrdinal(t)
  {
    match t
    case AnnotBorderSolid => Border.Solid
    case AnnotBorderDashed => Border.Dashed
    case AnnotBorderBeveled => Border.Beveled
    case AnnotBorderInset => Border.Inset
    case AnnotBorderUnderlined => Border.Underlined
  }

  /** Converting a style to a type and back, or a type to a style and back, is the identity. */
  lemma StyleTypeBijection(style: Border.BorderStyle, t: AnnotBorderType)
    ensures StyleOfType(TypeOfStyle(style)) == style
    ensures TypeOfStyle(StyleOfType(t)) == t
  {
  }

  /** The fields of an `AnnotBorderStyle` object; `dash` holds the pattern itself. */
  datatype AnnotBorderStyle = AnnotBorderStyle(
    borderType: AnnotBorderType,
    width: real,
    dash: seq<real>,
    r: real, g: real, b: real)
  {
    /** `getType()`. */
    function GetType(): (t: AnnotBorderType)
      ensures t == borderType
    {
      borderType
    }

    /** `getWidth()`. */
    function GetWidth(): (w: real)
      ensures w == width
    {
      width
    }

    /** `getDash(&dash, &dashLength)`: the pattern and its length. */
    function GetDash(): (result: (seq<real>, int))
      ensures result.0 == dash && result.1 == |dash|
    {
      (dash, |dash|)
    }

    /** `getColor(&r, &g, &b)`. */
    function GetColor(): (rgb: (real, real, real))
      ensures rgb.0 == r && rgb.1 == g && rgb.2 == b
    {
      (r, g, b)
    }
  }

  /**
   * `AnnotBorderStyle(type, width, dash, dashLength, r, g, b)`: the pattern is
   * the first `dashLength` entries of the buffer handed over.
   */
  function MakeBorderStyle(
    typeA: AnnotBorderType, widthA: real,
    dashA: seq<real>, dashLengthA: int,
    rA: real, gA: real, bA: real): (s: AnnotBorderStyle)
    requires 0 <= dashLengthA <= |dashA|
    ensures |s.dash| == dashLengthA
  {
    AnnotBorderStyle(typeA, widthA, dashA[..dashLengthA], rA, gA, bA)
  }

  /** Every getter returns what the snapshot was built from. */
  lemma GettersReturnStored(
    typeA: AnnotBorderType, widthA: real,
    dashA: seq<real>, dashLengthA: int,
    rA: real, gA: real, bA: real)
    requires 0 <= dashLengthA <= |dashA|
    ensures MakeBorderStyle(typeA, widthA, dashA, dashLengthA, rA, gA, bA).GetType() == typeA
    ensures MakeBorderStyle(typeA, widthA, dashA, dashLengthA, rA, gA, bA).GetWidth() == widthA
    ensures MakeBorderStyle(typeA, widthA, dashA, dashLengthA, rA, gA, bA).GetDash() == (dashA[..dashLengthA], dashLengthA)
    ensures MakeBorderStyle(typeA, widthA, dashA, dashLengthA, rA, gA, bA).GetColor() == (rA, gA, bA)
  {
  }
}
