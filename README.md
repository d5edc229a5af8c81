# poppler annotation value layer, in Dafny

This project models the value layer of poppler's PDF annotation support as
declared in `poppler/Annot.h`: the annotation flag word, the annotation colour
(`C` entry), the border specification in its two encodings (the legacy
`Border` array and the `BS` border style dictionary), the border presentation
snapshot `AnnotBorderStyle`, an annotation's identity matching and geometry
accessors, and the page's annotation collection `Annots` with indexed access
and lookup by reference.

Files, one module each:

- `wrappers.dfy` — `Option`, for entries a dictionary or array may omit.
- `flags.dfy` — `Flags`: `Annot::AnnotFlag` as bits of a `bv32` word (section 12.5.3, Table 165 of ISO 32000-1), with test, set and clear.
- `color.dfy` — `Color`: the colour-space enumeration and the class `AnnotColor` holding its components in an array (section 12.5.2, Table 164 of ISO 32000-1).
- `border.dfy` — `Border`: the border value `BorderSpec`, tagged by the form it came from, the parsers of both encodings with their defaults and the dash limit, and the class `AnnotBorder` holding the dash pattern in an array.
- `border_style.dfy` — `BorderStyle`: `AnnotBorderType`, its correspondence with `AnnotBorder::AnnotBorderStyle`, and the immutable snapshot `AnnotBorderStyle`.
- `annot.dfy` — `Annotations`: references and their matching, the class `Annot`, and the class `Annots` over an array of annotations.

The parts of the header that only declare a constructor taking a `Dict` or an
`Array` are modelled as constructors given the entries already read (numbers
for `Border` and `C`, optional entries for `BS`, resolved annotations for
`Annots`); the object store that reads them is not part of this model.

Decisions where the header gives no body:

- A `C` array whose length is not 0, 1, 3 or 4 yields the transparent colour (no components), so the colour space always equals the component count.
- A `Border` array shorter than three entries leaves the `AnnotBorderArray()` defaults; entries from the fourth on are the dash pattern, cut at `DASH_LIMIT`; a non-empty dash pattern makes the style dashed (the dash array of Table 164 of ISO 32000-1 specifies a dashed border).
- `DASH_LIMIT` is declared only in `AnnotBorderArray`, so only the legacy array form is cut at ten entries; the `D` entry of `BS` is kept as given.
- An `S` name that Table 166 does not list (any name other than `S`, `D`, `B`, `I`, `U`, longer names included) selects the default, solid.
- When both `BS` and `Border` are present, `BS` wins; when neither is, the `Border` default `[0 0 1]` of Table 164 applies.
- An annotation built without a reference stores the reference `(-1, -1)`, which names no object, because `match` compares the stored pair and does not consult `hasRef`.
- An annotation without a `C` entry has no colour object (a null `color`).
- An annotation whose `Rect` could not be read is kept in `Annots` (it is not ok); only entries that did not resolve to an annotation are skipped.

## Model

| member | source | states |
|---|---|---|
| Flags.BitIndex | poppler/Annot.h:157-169 | each of the ten real flags sits at one of the bit positions 0 to 9 |
| Flags.Mask | poppler/Annot.h:157-169 | `flagUnknown` is 0 and is the only zero flag; every other enumerator equals `1 << BitIndex`, a single bit |
| Flags.MaskBits | poppler/Annot.h:157-169 | a flag's mask has exactly one bit raised, its own |
| Flags.Test | poppler/Annot.h:157-169 | a flag is raised in the 32-bit word iff it is not `flagUnknown` and its bit is 1 |
| Flags.Set | poppler/Annot.h:157-169 | after setting, the flag is raised and every bit of the 32-bit word other than the flag's own is unchanged |
| Flags.Clear | poppler/Annot.h:157-169 | after clearing, the flag is lowered and every other bit of the 32-bit word is unchanged |
| Flags.FlagsAreDistinctBits | poppler/Annot.h:157-169 | two different real flags have different bit positions and disjoint masks |
| Flags.SetKeepsOtherFlags | poppler/Annot.h:157-169 | setting one flag does not change whether any other flag is raised |
| Flags.ClearKeepsOtherFlags | poppler/Annot.h:157-169 | clearing one flag does not change whether any other flag is raised |
| Flags.ClearAfterSet | poppler/Annot.h:157-169 | clearing a flag just set gives the same word as clearing it directly |
| Color.ComponentCount | poppler/Annot.h:95-100 | the colour-space enumerator values are component counts: at most 4 and never 2 |
| Color.SpaceForCount | poppler/Annot.h:95-100 | for a length of 0, 1, 3 or 4 the space chosen has exactly that component count |
| Color.SpaceCountRoundTrip | poppler/Annot.h:95-100 | every colour space is the one its own component count selects |
| Color.ParsedComponents | poppler/Annot.h:103-112 | components kept from a `C` array always have a valid count; a valid-length array is kept whole, any other gives no components |
| Color.AnnotColor.constructor | poppler/Annot.h:102 | the default colour has no components (transparent) |
| Color.AnnotColor.FromArray | poppler/Annot.h:103-112 | the stored components are those parsed from the array |
| Color.AnnotColor.GetSpace | poppler/Annot.h:106 | the returned space's value equals the stored component count |
| Color.AnnotColor.GetValue | poppler/Annot.h:107-112 | returns component `i` of the stored values, defined only for `0 <= i < length` |
| Border.StyleOrdinal | poppler/Annot.h:31-37 | the five border styles have positions 0 to 4, solid at 0 |
| Border.ParseBorderArray | poppler/Annot.h:57-70 | a legacy array yields the array form; short arrays give the defaults; otherwise corners and width are entries 1 to 3, dash entry i is array entry 4 + i, at most `DASH_LIMIT` = 10 are kept, and a dash makes the style dashed |
| Border.BorderArrayRoundTrip | poppler/Annot.h:57-70 | every border the array form can express is read back unchanged from its array |
| Border.ExtraDashEntriesIgnored | poppler/Annot.h:66 | dash entries past the tenth are dropped silently: cutting them off changes nothing |
| Border.StyleFromName | poppler/Annot.h:84 | the names D, B, I, U select the styles they name and every other name selects solid |
| Border.StyleNameRoundTrip | poppler/Annot.h:84 | every style is selected by its own `S` name |
| Border.ParseBorderStyleDict | poppler/Annot.h:76-86 | a `BS` dictionary yields the BS form; W, S and D are taken when present and default to 1, solid and [3] when absent |
| Border.BorderStyleDictRoundTrip | poppler/Annot.h:76-86 | every BS-form border is read back unchanged from its dictionary |
| Border.EmptyBorderStyleDictIsDefault | poppler/Annot.h:79-85 | an empty `BS` dictionary gives exactly the `AnnotBorderBS()` defaults |
| Border.SelectBorder | poppler/Annot.h:239 | `BS` takes precedence over `Border`; without `BS` the border is the array form, parsed or default |
| Border.AnnotBorder.Array | poppler/Annot.h:59-69 | the default array border has corners 0, width 1, no dash and solid style |
| Border.AnnotBorder.FromArray | poppler/Annot.h:48-66 | the object holds the border parsed from the array and never more than `DASH_LIMIT` dash entries |
| Border.AnnotBorder.BS | poppler/Annot.h:79-85 | the default BS border has width 1, solid style and dash [3] |
| Border.AnnotBorder.FromDict | poppler/Annot.h:80-85 | the object holds the border parsed from the dictionary |
| Border.AnnotBorder.GetWidth | poppler/Annot.h:41-47 | returns the stored width |
| Border.AnnotBorder.GetDashLength | poppler/Annot.h:42-48 | returns the length of the stored dash pattern |
| Border.AnnotBorder.GetDash | poppler/Annot.h:43-49 | returns the buffer whose first `dashLength` entries are the stored dash pattern |
| Border.AnnotBorder.GetStyle | poppler/Annot.h:44-50 | returns the stored style |
| Border.AnnotBorder.GetHorizontalCorner | poppler/Annot.h:62-67 | returns the stored horizontal corner radius of an array-form border |
| Border.AnnotBorder.GetVerticalCorner | poppler/Annot.h:63-68 | returns the stored vertical corner radius of an array-form border |
| BorderStyle.TypeOrdinal | poppler/Annot.h:119-125 | the five border types have positions 0 to 4 |
| BorderStyle.TypeOfStyle | poppler/Annot.h:119-125 | a border style converts to the border type at the same position |
| BorderStyle.StyleOfType | poppler/Annot.h:119-125 | a border type converts to the border style at the same position |
| BorderStyle.StyleTypeBijection | poppler/Annot.h:119-125 | the two conversions are inverse to each other in both directions |
| BorderStyle.MakeBorderStyle | poppler/Annot.h:130-148 | the snapshot keeps exactly `dashLength` dash entries from the buffer it is given |
| BorderStyle.AnnotBorderStyle.GetType | poppler/Annot.h:135 | returns the stored border type |
| BorderStyle.AnnotBorderStyle.GetWidth | poppler/Annot.h:136 | returns the stored width |
| BorderStyle.AnnotBorderStyle.GetDash | poppler/Annot.h:137-138 | returns the stored dash pattern together with its length |
| BorderStyle.AnnotBorderStyle.GetColor | poppler/Annot.h:139-140 | returns the stored r, g and b |
| BorderStyle.GettersReturnStored | poppler/Annot.h:135-140 | the getters return the type, width, dash with its length, and r, g, b the snapshot was built from |
| Annotations.RefsMatchIsEquality | poppler/Annot.h:182-183 | two references match iff they are the same (num, gen) pair |
| Annotations.RefsMatchIsEquivalence | poppler/Annot.h:182-183 | matching is reflexive, symmetric and transitive |
| Annotations.StaleGenerationDoesNotMatch | poppler/Annot.h:182-183 | the same object number with another generation number does not match |
| Annotations.Annot.constructor | poppler/Annot.h:171 | an annotation built without a reference has none, is ok iff its rectangle was read, holds the border `SelectBorder` gives for its `BS` and `Border` entries, and holds a colour parsed from `C` iff `C` is present |
| Annotations.Annot.WithRef | poppler/Annot.h:172 | an annotation built with a reference stores it, is ok iff its rectangle was read, and holds the border and colour read from `BS`, `Border` and `C` as above |
| Annotations.ReadBorder | poppler/Annot.h:239 | the border object holds `SelectBorder` of the `BS` and `Border` entries: the dictionary form when present, else the array form |
| Annotations.ReadColor | poppler/Annot.h:240 | a colour object exists iff there is a `C` entry, and holds the components parsed from it |
| Annotations.Annot.IsOk | poppler/Annot.h:174 | returns the stored `ok` flag, which both constructors set exactly when `Rect` was read |
| Annotations.Annot.TextField | poppler/Annot.h:180 | returns the stored text-field flag |
| Annotations.Annot.GetFontSize | poppler/Annot.h:190 | returns the stored font size |
| Annotations.Annot.GetType | poppler/Annot.h:192 | returns the stored annotation type name |
| Annotations.Annot.GetRect | poppler/Annot.h:193 | returns the stored rectangle |
| Annotations.Annot.GetBorder | poppler/Annot.h:194 | returns the stored border object |
| Annotations.Annot.GetColor | poppler/Annot.h:195 | returns the stored colour object, null when there is no `C` entry |
| Annotations.Annot.Match | poppler/Annot.h:182-183 | an annotation matches a reference iff its stored reference is that exact pair |
| Annotations.UnreferencedAnnotMatchesNoObject | poppler/Annot.h:182-183 | an annotation built without a reference matches no object with a positive object number |
| Annotations.Annot.GetXMin | poppler/Annot.h:187 | returns the smaller x coordinate of the two stored corners |
| Annotations.Annot.GetYMin | poppler/Annot.h:188 | returns the smaller y coordinate of the two stored corners |
| Annotations.Resolved | poppler/Annot.h:256-257 | the kept annotations are never more than the entries of the page's list |
| Annotations.ResolvedMembership | poppler/Annot.h:256-257 | an annotation is kept iff its entry resolved |
| Annotations.ResolvedOne | poppler/Annot.h:256-257 | a single entry is kept iff it resolved |
| Annotations.ResolvedAppend | poppler/Annot.h:256-257 | resolving two runs of entries gives the annotations of the first run followed by those of the second, so skipping entries never reorders the kept ones |
| Annotations.ResolvedKeepsOrder | poppler/Annot.h:256-257 | when every entry resolves, the collection holds them all in source order |
| Annotations.Annots.constructor | poppler/Annot.h:257 | the collection holds the resolved annotations in source order |
| Annotations.Annots.GetNumAnnots | poppler/Annot.h:262 | returns the number of annotations held |
| Annotations.Annots.GetAnnot | poppler/Annot.h:263 | returns the i-th annotation held, defined only for `0 <= i < getNumAnnots()` |
| Annotations.Annots.FindAnnot | poppler/Annot.h:273 | returns null iff no held annotation matches the reference; otherwise a held annotation that matches, the first such |

## Left out

- `Annot::draw`: it hands the appearance stream to the rendering engine `Gfx`, which is not part of this model.
- `Annot::getAppearance`: it fetches an object through `XRef`, the object store, which is not part of this model.
- `generateFieldAppearance`, `drawText`, `drawListBox`, `getNextLine`, `writeTextString`, `drawCircle`, `drawCircleTopLeft`, `drawCircleBottomRight`, `setColor`, `readArrayNum`: only their declarations are given; they depend on font metrics (`GfxFont`, `GfxFontDict`, `CharCodeToUnicode`) and emit content-stream text with floating-point coordinates.
- `Annots::generateAppearances` and `scanFieldAppearances`: the field-tree walk and the appearance generation it drives have no body here.
- `Annot::initialize` and the reading of `Dict`, `Array` and `Object` values through `XRef` and `Catalog`: the constructors take the entries already read, so non-numeric array entries, unresolvable objects and the default-appearance string are not modelled.
- Border.ParseBorderArray: the width (third entry) is stored as given; a border width of at least 0 is not enforced, since the constructor's body is not in the header.
- Border.ParseBorderStyleDict: the `W` entry is stored as given; a border width of at least 0 is not enforced, for the same reason.
- The fields `contents`, `pageDict`, `name`, `modified`, `appearance`, `appearState`, `treeKey`, `optionalContent`, `xref`, `widget`, `appearBuf`, `regen`, `isMultiline`, `isListbox`: only the left-out operations read or write them.
- Memory ownership and the destructors: not behaviour.
- Floating point: widths, corners, dash entries and colour components are Dafny `real`, since this layer only stores and returns them.
- Integer widths: `length`, `dashLength` and `nAnnots` are C `int`; here they are unbounded, which only matters beyond 2^31 entries.
- Color.AnnotColor.FromArray: the constructor's body is not in the header, so components are stored as given, with no clamping to [0, 1].
- Annotations.Annots.FindAnnot: the body is not in the header; the model scans in order, so "the first match" is a property of the model.
