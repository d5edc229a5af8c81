/**
 * `Annot` and `Annots`: an annotation's identity, geometry, flags, border and
 * colour, and the page's ordered collection of annotations with indexed
 * access and lookup by object reference.
 */
module Annotations {
  import opened Wrappers
  import Flags
  import Color
  import Border

  /** An indirect reference: object number and generation number. */
  datatype Ref = Ref(num: int, gen: int)

  /** Two references denote the same object exactly when both numbers agree. */
  predicate RefsMatch(x: Ref, y: Ref) {
    x.num == y.num && x.gen == y.gen
  }

  /** Matching is equality of the (num, gen) pair. */
  lemma RefsMatchIsEquality(x: Ref, y: Ref)
    ensures RefsMatch(x, y) <==> x == y
  {
  }

  /** Matching is reflexive, symmetric and transitive. */
  lemma RefsMatchIsEquivalence(x: Ref, y: Ref, z: Ref)
    ensures RefsMatch(x, x)
    ensures RefsMatch(x, y) ==> RefsMatch(y, x)
    ensures RefsMatch(x, y) && RefsMatch(y, z) ==> RefsMatch(x, z)
  {
  }

  /** A stale generation number does not match: (5, 0) is not (5, 1). */
  lemma StaleGenerationDoesNotMatch(x: Ref, y: Ref)
    requires x.num == y.num && x.gen != y.gen
    ensures !RefsMatch(x, y)
  {
  }

  /**
   * The reference stored in an annotation built without one. PDF object
   * numbers are positive (section 7.3.10 of ISO 32000-1), so it denotes no object.
   */
  const NoRef := Ref(-1, -1)

  /** `PDFRectangle`: two corners, in whatever order the file gives them. */
  datatype PDFRectangle = PDFRectangle(x1: real, y1: real, x2: real, y2: real)

  /** The rectangle of an annotation whose `Rect` could not be read. */
  const EmptyRect := PDFRectangle(0.0, 0.0, 0.0, 0.0)

  class Annot {
    var ref: Ref
    var hasRef: bool
    var rect: PDFRectangle
    var ok: bool
    var flags: Flags.FlagWord
    var annotType: string
    var fontSize: real
    var isTextField: bool
    var border: Border.AnnotBorder?
    var color: Color.AnnotColor?

    /** An annotation built without a reference keeps `NoRef`. */
    ghost predicate Valid()
      reads this
    {
      !hasRef ==> ref == NoRef
    }

    /**
     * `Annot(xref, acroForm, dict, catalog)`, given the entries already read
     * from the dictionary: it is ok exactly when `Rect` could be read, its
     * border comes from `BS` or `Border` and its colour from `C`.
     */
    constructor (rectA: Option<PDFRectangle>, flagsA: Flags.FlagWord, typeA: string,
                 bsA: Option<Border.BorderStyleDict>, borderArrayA: Option<seq<real>>,
                 colorA: Option<seq<real>>, fontSizeA: real, isTextFieldA: bool)
      ensures Valid() && !hasRef
      ensures ok == rectA.Some? && rect == rectA.GetOr(EmptyRect)
      ensures flags == flagsA && annotType == typeA
      ensures fontSize == fontSizeA && isTextField == isTextFieldA
      ensures border != null && fresh(border) && fresh(border.dash) && border.Valid()
      ensures border.Value() == Border.SelectBorder(bsA, borderArrayA)
      ensures color != null <==> colorA.Some?
      ensures color != null ==> fresh(color) && fresh(color.values) && color.Valid()
      ensures color != null ==> color.Components() == Color.ParsedComponents(colorA.value)
    {
      ref := NoRef;
      hasRef := false;
      ok := rectA.Some?;
      rect := rectA.GetOr(EmptyRect);
      flags := flagsA;
      annotType := typeA;
      var b := ReadBorder(bsA, borderArrayA);
      var c := ReadColor(colorA);
      border := b;
      color := c;
      fontSize := fontSizeA;
      isTextField := isTextFieldA;
    }

    /** `Annot(xref, acroForm, dict, aref, catalog)`: as above, identified by `aref`. */
    constructor WithRef(aref: Ref, rectA: Option<PDFRectangle>, flagsA: Flags.FlagWord, typeA: string,
                        bsA: Option<Border.BorderStyleDict>, borderArrayA: Option<seq<real>>,
                        colorA: Option<seq<real>>, fontSizeA: real, isTextFieldA: bool)
      ensures Valid() && hasRef && ref == aref
      ensures ok == rectA.Some? && rect == rectA.GetOr(EmptyRect)
      ensures flags == flagsA && annotType == typeA
      ensures fontSize == fontSizeA && isTextField == isTextFieldA
      ensures border != null && fresh(border) && fresh(border.dash) && border.Valid()
      ensures border.Value() == Border.SelectBorder(bsA, borderArrayA)
      ensures color != null <==> colorA.Some?
      ensures color != null ==> fresh(color) && fresh(color.values) && color.Valid()
      ensures color != null ==> color.Components() == Color.ParsedComponents(colorA.value)
    {
      ref := aref;
      hasRef := true;
      ok := rectA.Some?;
      rect := rectA.GetOr(EmptyRect);
      flags := flagsA;
      annotType := typeA;
      var b := ReadBorder(bsA, borderArrayA);
      var c := ReadColor(colorA);
      border := b;
      color := c;
      fontSize := fontSizeA;
      isTextField := isTextFieldA;
    }

    /** `isOk()`. */
    predicate IsOk()
      reads this
      ensures IsOk() <==> ok
    {
      ok
    }

    /** `textField()`. */
    predicate TextField()
      reads this
      ensures TextField() <==> isTextField
    {
      isTextField
    }

    /** `match(refA)`: this annotation is the object `refA` denotes, generation included. */
    predicate Match(refA: Ref)
      reads this
      ensures Match(refA) <==> ref == refA
    {
      RefsMatch(ref, refA)
    }

    /** `getXMin()`: the smaller x of the two corners. */
    function GetXMin(): (x: real)
      reads this
      ensures x <= rect.x1 && x <= rect.x2
      ensures x == rect.x1 || x == rect.x2
    {
      if rect.x1 <= rect.x2 then rect.x1 else rect.x2
    }

    /** `getYMin()`: the smaller y of the two corners. */
    function GetYMin(): (y: real)
      reads this
      ensures y <= rect.y1 && y <= rect.y2
      ensures y == rect.y1 || y == rect.y2
    {
      if rect.y1 <= rect.y2 then rect.y1 else rect.y2
    }

    /** `getFontSize()`. */
    function GetFontSize(): (size: real)
      reads this
      ensures size == fontSize
    {
      fontSize
    }

    /** `getType()`. */
    function GetType(): (t: string)
      reads this
      ensures t == annotType
    {
      annotType
    }

    /** `getRect()`. */
    function GetRect(): (r: PDFRectangle)
      reads this
      ensures r == rect
    {
      rect
    }

    /** `getBorder()`. */
    function GetBorder(): (b: Border.AnnotBorder?)
      reads this
      ensures b == border
    {
      border
    }

    /** `getColor()`. */
    function GetColor(): (c: Color.AnnotColor?)
      reads this
      ensures c == color
    {
      color
    }
  }

  /** `Annot::border`: the object for the `BS` dictionary or the `Border` array, `BS` first. */
  method ReadBorder(bs: Option<Border.BorderStyleDict>, borderArray: Option<seq<real>>)
    returns (border: Border.AnnotBorder)
    ensures fresh(border) && fresh(border.dash) && border.Valid()
    ensures border.Value() == Border.SelectBorder(bs, borderArray)
  {
    if bs.Some? {
      border := new Border.AnnotBorder.FromDict(bs.value);
    } else if borderArray.Some? {
      border := new Border.AnnotBorder.FromArray(borderArray.value);
    } else {
      border := new Border.AnnotBorder.Array();
    }
  }

  /** `Annot::color`: the object for the `C` array, null when there is none. */
  method ReadColor(entries: Option<seq<real>>) returns (color: Color.AnnotColor?)
    ensures color != null <==> entries.Some?
    ensures color != null ==> fresh(color) && fresh(color.values) && color.Valid()
    ensures color != null ==> color.Components() == Color.ParsedComponents(entries.value)
  {
    if entries.Some? {
      color := new Color.AnnotColor.FromArray(entries.value);
    } else {
      color := null;
    }
  }

  /** An annotation built without a reference matches no object of the file. */
  lemma UnreferencedAnnotMatchesNoObject(a: Annot, r: Ref)
    requires a.Valid() && !a.hasRef
    requires r.num > 0
    ensures !a.Match(r)
  {
  }

  /**
   * The annotations that survive resolution, in source order: an entry that
   * did not resolve to an annotation dictionary is skipped.
   */
  function Resolved(entries: seq<Option<Annot>>): (kept: seq<Annot>)
    ensures |kept| <= |entries|
  {
    if entries == [] then []
    else
      var last := entries[|entries| - 1];
      Resolved(entries[..|entries| - 1]) + (if last.Some? then [last.value] else [])
  }

  /** Exactly the entries that resolved are kept. */
  lemma {:induction false} ResolvedMembership(entries: seq<Option<Annot>>, a: Annot)
    ensures a in Resolved(entries) <==> Some(a) in entries
  {
    if entries != [] {
      var init := entries[..|entries| - 1];
      ResolvedMembership(init, a);
      assert entries == init + [entries[|entries| - 1]];
    }
  }

  /** When every entry resolves, the collection is the entries in their order. */
  lemma {:induction false} ResolvedKeepsOrder(entries: seq<Option<Annot>>)
    requires forall i :: 0 <= i < |entries| ==> entries[i].Some?
    ensures |Resolved(entries)| == |entries|
    ensures forall i :: 0 <= i < |entries| ==> Resolved(entries)[i] == entries[i].value
  {
    if entries != [] {
      ResolvedKeepsOrder(entries[..|entries| - 1]);
    }
  }

  /** One entry: kept when it resolved, skipped when it did not. */
  lemma ResolvedOne(entry: Option<Annot>)
    ensures Resolved([entry]) == if entry.Some? then [entry.value] else []
  {
  }

  /**
   * Resolution works entry by entry: the annotations of two consecutive runs
   * of entries are those of the first run followed by those of the second,
   * so skipped entries never reorder the ones kept.
   */
  lemma {:induction false} ResolvedAppend(a: seq<Option<Annot>>, b: seq<Option<Annot>>)
    ensures Resolved(a + b) == Resolved(a) + Resolved(b)
    decreases |b|
  {
    if b == [] {
      assert a + b == a;
    } else {
      var init := b[..|b| - 1];
      ResolvedAppend(a, init);
      assert (a + b)[..|a + b| - 1] == a + init;
      assert (a + b)[|a + b| - 1] == b[|b| - 1];
    }
  }

  /** `Annots`: the annotations of one page, `annots[0 .. nAnnots)`. */
  class Annots {
    var annots: array<Annot>
    var nAnnots: int

    ghost predicate Valid()
      reads this
    {
      0 <= nAnnots <= annots.Length
    }

    /** The annotations, in order. */
    ghost function Contents(): seq<Annot>
      reads this, annots
      requires Valid()
    {
      annots[..nAnnots]
    }

    /**
     * `Annots(xref, catalog, annotsObj)`, given each entry of the page's
     * `Annots` array after resolution (`None` for an entry that did not
     * resolve to an annotation dictionary).
     */
    constructor (entries: seq<Option<Annot>>)
      ensures Valid() && fresh(annots)
      ensures Contents() == Resolved(entries)
    {
      var kept: seq<Annot> := [];
      var i := 0;
      while i < |entries|
        invariant 0 <= i <= |entries|
        invariant kept == Resolved(entries[..i])
      {
        assert entries[..i + 1][..i] == entries[..i];
        if entries[i].Some? {
          kept := kept + [entries[i].value];
        }
        i := i + 1;
      }
      assert entries[..|entries|] == entries;
      annots := new Annot[|kept|](j requires 0 <= j < |kept| => kept[j]);
      nAnnots := |kept|;
      new;
      assert annots[..nAnnots] == kept;
    }

    /** `getNumAnnots()`: the number of annotations held. */
    function GetNumAnnots(): (n: int)
      reads this, annots
      requires Valid()
      ensures n == |Contents()|
    {
      nAnnots
    }

    /** `getAnnot(i)`: the i-th annotation; only held positions can be read. */
    function GetAnnot(i: int): (a: Annot)
      reads this, annots
      requires Valid()
      requires 0 <= i < GetNumAnnots()
      ensures a == Contents()[i]
    {
      annots[i]
    }

    /**
     * `findAnnot(ref)`: an annotation of this page that matches `r`, or null
     * when none does. The scan runs in order and stops at the first match.
     */
    method FindAnnot(r: Ref) returns (a: Annot?)
      requires Valid()
      ensures a == null <==> forall k :: 0 <= k < |Contents()| ==> !Contents()[k].Match(r)
      ensures a != null ==> exists k :: 0 <= k < |Contents()| && Contents()[k] == a && a.Match(r)
                                        && forall j :: 0 <= j < k ==> !Contents()[j].Match(r)
    {
      var i := 0;
      while i < nAnnots
        invariant 0 <= i <= nAnnots
        invariant forall k :: 0 <= k < i ==> !annots[k].Match(r)
      {
        if annots[i].Match(r) {
          assert Contents()[i] == annots[i];
          return annots[i];
        }
        i := i + 1;
      }
      return null;
    }
  }
}
