/** The LCD control register of the picture-processing unit
    (src/gameboy/hardware/ppu/registers.rs): a `bitflags` byte with eight
    named one-bit flags. */
module LcdControl {

  /** The eight flags, most significant bit first. */
  datatype Flag =
    | LcdDisplayEnable
    | WindowTileMapAddr
    | WindowEnable
    | BackgroundTileDataAddr
    | BackgroundTileMapAddr
    | ObjSize
    | ObjEnable
    | BackgroundEnable

  /** The constant each flag stands for. Every one is a single set bit. */
  function Mask(f: Flag): (m: bv8)
    ensures m != 0 && m & (m - 1) == 0
  {
    match f
    case LcdDisplayEnable => 0x80
    case WindowTileMapAddr => 0x40
    case WindowEnable => 0x20
    case BackgroundTileDataAddr => 0x10
    case BackgroundTileMapAddr => 0x08
    case ObjSize => 0x04
    case ObjEnable => 0x02
    case BackgroundEnable => 0x01
  }

  /** Every flag once, in declaration order. */
  const AllFlags: seq<Flag> := [
    LcdDisplayEnable, WindowTileMapAddr, WindowEnable, BackgroundTileDataAddr,
    BackgroundTileMapAddr, ObjSize, ObjEnable, BackgroundEnable
  ]

  /** Where `f` sits in `AllFlags`: flag `i` is bit `7 - i` of the byte. */
  function Index(f: Flag): (i: nat)
    ensures i < |AllFlags| && AllFlags[i] == f
    ensures Mask(f) == 0x80 >> i
  {
    match f
    case LcdDisplayEnable => 0
    case WindowTileMapAddr => 1
    case WindowEnable => 2
    case BackgroundTileDataAddr => 3
    case BackgroundTileMapAddr => 4
    case ObjSize => 5
    case ObjEnable => 6
    case BackgroundEnable => 7
  }

  /** A value of the control register: the raw byte that `bits()` returns. */
  datatype Control = Control(bits: bv8)

  /** `Control::empty()`: no flag set. */
  const Empty: Control := Control(0)

  /** `contains`: every bit of the flag is set in the register. */
  predicate Contains(c: Control, f: Flag) {
    c.bits & Mask(f) == Mask(f)
  }

  /** Bitwise OR of the masks of `fs`. */
  function Union(fs: seq<Flag>): bv8 {
    if fs == [] then 0 else Mask(fs[0]) | Union(fs[1..])
  }

  /** The flags of `fs` that `c` contains, in the order of `fs`. */
  function Contained(c: Control, fs: seq<Flag>): (r: seq<Flag>)
    ensures forall f :: f in r <==> f in fs && Contains(c, f)
  {
    if fs == [] then []
    else if Contains(c, fs[0]) then [fs[0]] + Contained(c, fs[1..])
    else Contained(c, fs[1..])
  }

  /** `AllFlags` lists each of the eight flags exactly once. */
  lemma AllFlagsEnumerated()
    ensures |AllFlags| == 8
    ensures forall f :: f in AllFlags
    ensures forall i, j :: 0 <= i < j < |AllFlags| ==> AllFlags[i] != AllFlags[j]
  {
    forall f ensures f in AllFlags {
      var i := Index(f);
    }
  }

  /** Two distinct flags share no bit. */
  lemma MasksDisjoint(f: Flag, g: Flag)
    requires f != g
    ensures Mask(f) & Mask(g) == 0
  {
  }

  /** The display-enable flag is the top bit and the background-enable flag the bottom one. */
  lemma MaskOrder(f: Flag)
    ensures Mask(LcdDisplayEnable) == 0x80 && Mask(BackgroundEnable) == 0x01
    ensures Mask(BackgroundEnable) <= Mask(f) <= Mask(LcdDisplayEnable)
  {
  }

  /** Together the eight flags name every bit of the byte. */
  lemma AllFlagsCoverByte()
    ensures Union(AllFlags) == 0xFF
  {
  }

  /** The empty register contains no flag. */
  lemma EmptyContainsNothing(f: Flag)
    ensures !Contains(Empty, f)
  {
  }

  /** Keeping the flags of `fs` that `c` contains selects exactly the bits
      of `c` that `fs` covers. */
  lemma {:induction false} UnionOfContained(c: Control, fs: seq<Flag>)
    ensures Union(Contained(c, fs)) == c.bits & Union(fs)
  {
    if fs != [] {
      UnionOfContained(c, fs[1..]);
      if Contains(c, fs[0]) {
        ContainedStepKept(c, fs);
      } else {
        ContainedStepDropped(c, fs);
      }
    }
  }

  /** One step of `UnionOfContained` when the head flag is kept. */
  lemma ContainedStepKept(c: Control, fs: seq<Flag>)
    requires fs != [] && Contains(c, fs[0])
    requires Union(Contained(c, fs[1..])) == c.bits & Union(fs[1..])
    ensures Union(Contained(c, fs)) == c.bits & Union(fs)
  {
  }

  /** One step of `UnionOfContained` when the head flag is dropped. */
  lemma ContainedStepDropped(c: Control, fs: seq<Flag>)
    requires fs != [] && !Contains(c, fs[0])
    requires Union(Contained(c, fs[1..])) == c.bits & Union(fs[1..])
    ensures Union(Contained(c, fs)) == c.bits & Union(fs)
  {
  }

  /** Every control byte is the union of the named flags it contains. */
  lemma EveryBitNamed(c: Control)
    ensures Union(Contained(c, AllFlags)) == c.bits
  {
    UnionOfContained(c, AllFlags);
    AllFlagsCoverByte();
  }

  /** Two control values containing the same flags are the same value. */
  lemma FlagsDetermineControl(c: Control, d: Control)
    requires forall f :: Contains(c, f) <==> Contains(d, f)
    ensures c == d
  {
    SameFlagsSameSelection(c, d, AllFlags);
    EveryBitNamed(c);
    EveryBitNamed(d);
  }

  /** Selection depends only on which flags the register contains. */
  lemma {:induction false} SameFlagsSameSelection(c: Control, d: Control, fs: seq<Flag>)
    requires forall f :: Contains(c, f) <==> Contains(d, f)
    ensures Contained(c, fs) == Contained(d, fs)
  {
    if fs != [] {
      SameFlagsSameSelection(c, d, fs[1..]);
    }
  }
}
