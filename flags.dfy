/**
 * The annotation flags `Annot::AnnotFlag` and the `F` entry they live in
 * (section 12.5.3, Table 165 of ISO 32000-1). The entry is a 32-bit unsigned
 * word, so it is modelled as `bv32`; every flag but `Unknown` is one bit of it.
 */
module Flags {

  /** `Annot::flags`: "must be a 32 bit unsigned int". */
  type FlagWord = bv32

  /** A bit position inside a `FlagWord`. */
  type BitPosition = k: bv32 | k < 32

  datatype AnnotFlag =
    | Unknown
    | Invisible
    | Hidden
    | Print
    | NoZoom
    | NoRotate
    | NoView
    | ReadOnly
    | Locked
    | ToggleNoView
    | LockedContents

  /** The bit a flag occupies: flag n of Table 165 is bit n - 1. */
  function BitIndex(f: AnnotFlag): (k: BitPosition)
    requires f != Unknown
    ensures k < 10
  {
    match f
    case Invisible => 0
    case Hidden => 1
    case Print => 2
    case NoZoom => 3
    case NoRotate => 4
    case NoView => 5
    case ReadOnly => 6
    case Locked => 7
    case ToggleNoView => 8
    case LockedContents => 9
  }

  /** The enumerator's value as the header gives it. */
  function Mask(f: AnnotFlag): (m: FlagWord)
    ensures f == Unknown <==> m == 0
    ensures f != Unknown ==> m == 1 << BitIndex(f)
  {
    match f
    case Unknown => 0x0000
    case Invisible => 0x0001
    case Hidden => 0x0002
    case Print => 0x0004
    case NoZoom => 0x0008
    case NoRotate => 0x0010
    case NoView => 0x0020
    case ReadOnly => 0x0040
    case Locked => 0x0080
    case ToggleNoView => 0x0100
    case LockedContents => 0x0200
  }

  /** Bit `k` of the word `w`, counted from the least significant bit. */
  predicate BitAt(w: FlagWord, k: BitPosition)
  {
    (w >> k) & 1 == 1
  }

  /** Whether the flag `f` is raised in `w`; `Unknown` is never raised. */
  predicate Test(w: FlagWord, f: AnnotFlag)
    ensures Test(w, f) <==> f != Unknown && BitAt(w, BitIndex(f))
  {
    w & Mask(f) != 0
  }

  /** Raises `f` in `w`: afterwards bit k is raised iff it was before or it is `f`'s bit. */
  function Set(w: FlagWord, f: AnnotFlag): (r: FlagWord)
    ensures f != Unknown ==> Test(r, f)
    ensures forall k: BitPosition :: BitAt(r, k) == (BitAt(w, k) || (f != Unknown && k == BitIndex(f)))
  {
    SetBits(w, f);
    w | Mask(f)
  }

  /** Lowers `f` in `w`: afterwards bit k is raised iff it was before and it is not `f`'s bit. */
  function Clear(w: FlagWord, f: AnnotFlag): (r: FlagWord)
    ensures !Test(r, f)
    ensures forall k: BitPosition :: BitAt(r, k) == (BitAt(w, k) && !(f != Unknown && k == BitIndex(f)))
  {
    ClearBits(w, f);
    w & !Mask(f)
  }

  /** The bits of a flag's mask: exactly its own bit. */
  lemma MaskBits(f: AnnotFlag, k: BitPosition)
    ensures BitAt(Mask(f), k) == (f != Unknown && k == BitIndex(f))
  {
  }

  lemma SetBits(w: FlagWord, f: AnnotFlag)
    ensures forall k: BitPosition :: BitAt(w | Mask(f), k) == (BitAt(w, k) || (f != Unknown && k == BitIndex(f)))
  {
    forall k: BitPosition
      ensures BitAt(w | Mask(f), k) == (BitAt(w, k) || (f != Unknown && k == BitIndex(f)))
    {
      SetBit(w, f, k);
    }
  }

  lemma SetBit(w: FlagWord, f: AnnotFlag, k: BitPosition)
    ensures BitAt(w | Mask(f), k) == (BitAt(w, k) || (f != Unknown && k == BitIndex(f)))
  {
    if f != Unknown {
      SetOneBit(w, BitIndex(f), k);
    }
  }

  lemma SetOneBit(w: FlagWord, i: BitPosition, k: BitPosition)
    ensures BitAt(w | (1 << i), k) == (BitAt(w, k) || k == i)
  {
  }

  lemma ClearBits(w: FlagWord, f: AnnotFlag)
    ensures forall k: BitPosition :: BitAt(w & !Mask(f), k) == (BitAt(w, k) && !(f != Unknown && k == BitIndex(f)))
  {
    forall k: BitPosition
      ensures BitAt(w & !Mask(f), k) == (BitAt(w, k) && !(f != Unknown && k == BitIndex(f)))
    {
      ClearBit(w, f, k);
    }
  }

  lemma ClearBit(w: FlagWord, f: AnnotFlag, k: BitPosition)
    ensures BitAt(w & !Mask(f), k) == (BitAt(w, k) && !(f != Unknown && k == BitIndex(f)))
  {
    if f != Unknown {
      ClearOneBit(w, BitIndex(f), k);
    }
  }

  lemma ClearOneBit(w: FlagWord, i: BitPosition, k: BitPosition)
    ensures BitAt(w & !(1 << i), k) == (BitAt(w, k) && k != i)
  {
  }

  /** The ten flags occupy ten different bits, so no two masks overlap. */
  lemma FlagsAreDistinctBits(f: AnnotFlag, g: AnnotFlag)
    requires f != Unknown && g != Unknown && f != g
    ensures BitIndex(f) != BitIndex(g)
    ensures Mask(f) & Mask(g) == 0
  {
  }

  /** Raising one flag does not change whether any other flag is raised. */
  lemma SetKeepsOtherFlags(w: FlagWord, f: AnnotFlag, g: AnnotFlag)
    requires f != g
    ensures Test(Set(w, f), g) == Test(w, g)
  {
  }

  /** Lowering one flag does not change whether any other flag is raised. */
  lemma ClearKeepsOtherFlags(w: FlagWord, f: AnnotFlag, g: AnnotFlag)
    requires f != g
    ensures Test(Clear(w, f), g) == Test(w, g)
  {
  }

  /** Raising and then lowering a flag is the same as lowering it. */
  lemma ClearAfterSet(w: FlagWord, f: AnnotFlag)
    ensures Clear(Set(w, f), f) == Clear(w, f)
  {
  }
}
