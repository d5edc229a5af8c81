/**
 * `AnnotBorder` and its two subclasses: the legacy `Border` array
 * (`AnnotBorderArray`) and the border style dictionary `BS`
 * (`AnnotBorderBS`, section 12.5.4, Table 166 of ISO 32000-1). Both yield the
 * same shape, a `BorderSpec` tagged by the form it came from.
 */
module Border {
  import opened Wrappers

  /** `AnnotBorder::AnnotBorderStyle`, in declaration order. */
  datatype BorderStyle = Solid | Dashed | Beveled | Inset | Underlined

  /** The enumerator's numeric value: its position in the declaration. */
  function StyleOrdinal(style: BorderStyle): (n: nat)
    ensures n < 5
    ensures n == 0 <==> style == Solid
  {
    match style
    case Solid => 0
    case Dashed => 1
    case Beveled => 2
    case Inset => 3
    case Underlined => 4
  }

  /** Which subclass built the border; only `AnnotBorderArray` has corner radii. */
  datatype BorderForm =
    | ArrayForm(horizontalCorner: real, verticalCorner: real)
    | BSForm

  /** The fields of `AnnotBorder` (and of the subclass) as one value. */
  datatype BorderSpec = BorderSpec(form: BorderForm, width: real, dash: seq<real>, style: BorderStyle)

  /** `AnnotBorderArray::DASH_LIMIT`: implementation note 82 in Appendix H of the PDF Reference. */
  const DASH_LIMIT: nat := 10

  /** `AnnotBorderArray()`: corners 0, width 1, no dash, solid. */
  const DefaultBorderArray := BorderSpec(ArrayForm(0.0, 0.0), 1.0, [], Solid)

  /** `AnnotBorderBS()`: W 1, S solid, D [3]. */
  const DefaultBorderBS := BorderSpec(BSForm, 1.0, [3.0], Solid)

  function Min(a: int, b: int): int {
    if a <= b then a else b
  }

  /**
   * `AnnotBorderArray(Array *)`, given the numbers of the array
   * `[hRadius vRadius width dash...]`. An array too short to hold a width
   * leaves the defaults; dash entries past the tenth are dropped; a dash
   * pattern makes the border dashed.
   */
  function ParseBorderArray(entries: seq<real>): (b: BorderSpec)
    ensures b.form.ArrayForm?
    ensures |b.dash| <= DASH_LIMIT
    ensures |entries| < 3 ==> b == DefaultBorderArray
    ensures |entries| >= 3 ==>
      && b.form == ArrayForm(entries[0], entries[1])
      && b.width == entries[2]
      && |b.dash| == Min(|entries| - 3, DASH_LIMIT)
      && (forall i :: 0 <= i < |b.dash| ==> b.dash[i] == entries[3 + i])
    ensures b.style == if b.dash == [] then Solid else Dashed
  {
    if |entries| < 3 then DefaultBorderArray
    else
      var dash := entries[3..Min(|entries|, 3 + DASH_LIMIT)];
      BorderSpec(ArrayForm(entries[0], entries[1]), entries[2], dash, if dash == [] then Solid else Dashed)
  }

  /** Writes a border back as a legacy `Border` array. */
  function EncodeBorderArray(b: BorderSpec): (entries: seq<real>)
    requires b.form.ArrayForm?
    ensures |entries| == 3 + |b.dash|
  {
    [b.form.horizontalCorner, b.form.verticalCorner, b.width] + b.dash
  }

  /** The borders a legacy `Border` array can express. */
  predicate ArrayExpressible(b: BorderSpec) {
    && b.form.ArrayForm?
    && |b.dash| <= DASH_LIMIT
    && b.style == (if b.dash == [] then Solid else Dashed)
  }

  /** Every border a `Border` array can express is read back unchanged. */
  lemma BorderArrayRoundTrip(b: BorderSpec)
    requires ArrayExpressible(b)
    ensures ParseBorderArray(EncodeBorderArray(b)) == b
  {
  }

  /** Dash entries past the tenth do not influence the parsed border. */
  lemma ExtraDashEntriesIgnored(entries: seq<real>)
    requires |entries| > 3 + DASH_LIMIT
    ensures ParseBorderArray(entries) == ParseBorderArray(entries[..3 + DASH_LIMIT])
  {
  }

  /** The `S` names of Table 166, one letter per style. */
  function StyleName(style: BorderStyle): string {
    match style
    case Solid => "S"
    case Dashed => "D"
    case Beveled => "B"
    case Inset => "I"
    case Underlined => "U"
  }

  /** The style an `S` name selects; a name Table 166 does not list selects the default, solid. */
  function StyleFromName(name: string): (style: BorderStyle)
    ensures style != Solid ==> StyleName(style) == name
    ensures style == Solid <==> name !in ["D", "B", "I", "U"]
  {
    if name == "D" then Dashed
    else if name == "B" then Beveled
    else if name == "I" then Inset
    else if name == "U" then Underlined
    else Solid
  }

  /** Every style is selected by its own name. */
  lemma StyleNameRoundTrip(style: BorderStyle)
    ensures StyleFromName(StyleName(style)) == style
  {
  }

  /** The entries of a `BS` dictionary; each may be absent. */
  datatype BorderStyleDict = BorderStyleDict(w: Option<real>, s: Option<string>, d: Option<seq<real>>)

  /** `AnnotBorderBS(Dict *)`: each absent entry takes its default (W 1, S solid, D [3]). */
  function ParseBorderStyleDict(dict: BorderStyleDict): (b: BorderSpec)
    ensures b.form == BSForm
    ensures b.width == if dict.w.Some? then dict.w.value else DefaultBorderBS.width
    ensures b.style == if dict.s.Some? then StyleFromName(dict.s.value) else DefaultBorderBS.style
    ensures b.dash == if dict.d.Some? then dict.d.value else DefaultBorderBS.dash
  {
    BorderSpec(
      BSForm,
      dict.w.GetOr(1.0),
      dict.d.GetOr([3.0]),
      if dict.s.Some? then StyleFromName(dict.s.value) else Solid)
  }

  /** Writes a border back as a `BS` dictionary with every entry present. */
  function EncodeBorderStyleDict(b: BorderSpec): (dict: BorderStyleDict)
    ensures dict.w.Some? && dict.s.Some? && dict.d.Some?
  {
    BorderStyleDict(Some(b.width), Some(StyleName(b.style)), Some(b.dash))
  }

  /** Every `BS` border is read back unchanged from its dictionary. */
  lemma BorderStyleDictRoundTrip(b: BorderSpec)
    requires b.form == BSForm
    ensures ParseBorderStyleDict(EncodeBorderStyleDict(b)) == b
  {
  }

  /** An empty `BS` dictionary gives the `AnnotBorderBS()` defaults. */
  lemma EmptyBorderStyleDictIsDefault()
    ensures ParseBorderStyleDict(BorderStyleDict(None, None, None)) == DefaultBorderBS
  {
  }

  /**
   * The border of an annotation (`Annot::border`, from `Border` or `BS`): the
   * `BS` dictionary wins when both are present; with neither, the default
   * `Border` array `[0 0 1]` of Table 164 applies.
   */
  function SelectBorder(bs: Option<BorderStyleDict>, borderArray: Option<seq<real>>): (b: BorderSpec)
    ensures bs.Some? ==> b.form == BSForm && b == ParseBorderStyleDict(bs.value)
    ensures bs.None? ==> b.form.ArrayForm?
    ensures bs.None? && borderArray.Some? ==> b == ParseBorderArray(borderArray.value)
    ensures bs.None? && borderArray.None? ==> b == DefaultBorderArray
  {
    match bs
    case Some(dict) => ParseBorderStyleDict(dict)
    case None =>
      match borderArray
      case Some(entries) => ParseBorderArray(entries)
      case None => DefaultBorderArray
  }

  /**
   * An `AnnotBorder` object. `dash` is the heap buffer of which the first
   * `dashLength` entries are the pattern; `form` records the subclass.
   */
  class AnnotBorder {
    var form: BorderForm
    var width: real
    var dashLength: int
    var dash: array<real>
    var style: BorderStyle

    ghost predicate Valid()
      reads this
    {
      0 <= dashLength <= dash.Length
    }

    /** The border this object holds. */
    ghost function Value(): BorderSpec
      reads this, dash
      requires Valid()
    {
      BorderSpec(form, width, dash[..dashLength], style)
    }

    /** `AnnotBorderArray()`. */
    constructor Array()
      ensures Valid() && fresh(dash)
      ensures Value() == DefaultBorderArray
    {
      form := ArrayForm(0.0, 0.0);
      width := 1.0;
      dashLength := 0;
      dash := new real[0];
      style := Solid;
      new;
      assert dash[..dashLength] == [];
    }

    /** `AnnotBorderArray(Array *)`: never more than `DASH_LIMIT` dash entries. */
    constructor FromArray(entries: seq<real>)
      ensures Valid() && fresh(dash)
      ensures Value() == ParseBorderArray(entries)
      ensures dashLength <= DASH_LIMIT
    {
      var b := ParseBorderArray(entries);
      form := b.form;
      width := b.width;
      dashLength := |b.dash|;
      dash := new real[|b.dash|](i requires 0 <= i < |b.dash| => b.dash[i]);
      style := b.style;
      new;
      assert dash[..dashLength] == b.dash;
    }

    /** `AnnotBorderBS()`. */
    constructor BS()
      ensures Valid() && fresh(dash)
      ensures Value() == DefaultBorderBS
    {
      form := BSForm;
      width := 1.0;
      dashLength := 1;
      dash := new real[1](i requires 0 <= i < 1 => 3.0);
      style := Solid;
      new;
      assert dash[..dashLength] == [3.0];
    }

    /** `AnnotBorderBS(Dict *)`. */
    constructor FromDict(dict: BorderStyleDict)
      ensures Valid() && fresh(dash)
      ensures Value() == ParseBorderStyleDict(dict)
    {
      var b := ParseBorderStyleDict(dict);
      form := b.form;
      width := b.width;
      dashLength := |b.dash|;
      dash := new real[|b.dash|](i requires 0 <= i < |b.dash| => b.dash[i]);
      style := b.style;
      new;
      assert dash[..dashLength] == b.dash;
    }

    /** `getWidth()`: the stored width. */
    function GetWidth(): (w: real)
      reads this, dash
      requires Valid()
      ensures w == Value().width
    {
      width
    }

    /** `getDashLength()`: the number of entries in the stored dash pattern. */
    function GetDashLength(): (n: int)
      reads this, dash
      requires Valid()
      ensures n == |Value().dash|
    {
      dashLength
    }

    /** `getDash()`: the buffer whose first `getDashLength()` entries are the stored pattern. */
    function GetDash(): (d: array<real>)
      reads this, dash
      requires Valid()
      ensures d == dash
      ensures |Value().dash| <= d.Length
      ensures forall i :: 0 <= i < |Value().dash| ==> d[i] == Value().dash[i]
    {
      dash
    }

    /** `getStyle()`: the stored style. */
    function GetStyle(): (s: BorderStyle)
      reads this, dash
      requires Valid()
      ensures s == Value().style
    {
      style
    }

    /** `AnnotBorderArray::getHorizontalCorner()`. */
    function GetHorizontalCorner(): (h: real)
      reads this, dash
      requires Valid() && form.ArrayForm?
      ensures h == Value().form.horizontalCorner
    {
      form.horizontalCorner
    }

    /** `AnnotBorderArray::getVerticalCorner()`. */
    function GetVerticalCorner(): (v: real)
      reads this, dash
      requires Valid() && form.ArrayForm?
      ensures v == Value().form.verticalCorner
    {
      form.verticalCorner
    }
  }
}
