/** The CPU register file (src/gameboy/hardware/cpu/registers.rs): two
    16-bit registers, PC and SP, and eight 8-bit registers A, F, B, C, D, E,
    H, L. Only SP can be named for writing so far. */
module CpuRegisters {
  import opened Prelude

  /** `Reg16`: the 16-bit registers an instruction can name. The other pairs
      are still commented out in the source, so SP is the only variant. */
  datatype Reg16 = SP

  /** The contents of every register at one moment. */
  datatype RegisterFile = RegisterFile(
    pc: u16, sp: u16,
    a: bv8, f: bv8, b: bv8, c: bv8, d: bv8, e: bv8, h: bv8, l: bv8)

  /** `Registers::default()`: every field is zero. */
  const Zeroed: RegisterFile := RegisterFile(0, 0, 0, 0, 0, 0, 0, 0, 0, 0)

  /** The register file after `write16(reg, value)`. */
  function Written16(s: RegisterFile, reg: Reg16, value: u16): (t: RegisterFile)
    ensures t.sp == value
    ensures t.pc == s.pc
    ensures t.a == s.a && t.f == s.f && t.b == s.b && t.c == s.c
    ensures t.d == s.d && t.e == s.e && t.h == s.h && t.l == s.l
  {
    match reg
    case SP => s.(sp := value)
  }

  /** SP is the only register `write16` can name. */
  lemma OnlyStackPointer(reg: Reg16)
    ensures reg == SP
  {
  }

  /** Writing the same value twice is the same as writing it once. */
  lemma Written16Idempotent(s: RegisterFile, reg: Reg16, value: u16)
    ensures Written16(Written16(s, reg, value), reg, value) == Written16(s, reg, value)
  {
  }

  /** A second write to the same register overrides the first. */
  lemma Written16LastWins(s: RegisterFile, reg: Reg16, v: u16, w: u16)
    ensures Written16(Written16(s, reg, v), reg, w) == Written16(s, reg, w)
  {
  }

  /** Writing back the value a register already holds changes nothing. */
  lemma Written16Unchanged(s: RegisterFile)
    ensures Written16(s, SP, s.sp) == s
  {
  }

  /** `Registers`: the register fields, updated in place. */
  class Registers {
    var pc: u16
    var sp: u16
    var a: bv8
    var f: bv8
    var b: bv8
    var c: bv8
    var d: bv8
    var e: bv8
    var h: bv8
    var l: bv8

    /** The value held by every field. */
    function State(): RegisterFile
      reads this
    {
      RegisterFile(pc, sp, a, f, b, c, d, e, h, l)
    }

    /** `Registers::new`: every register starts at zero. */
    constructor ()
      ensures State() == Zeroed
      ensures pc == 0 && sp == 0
      ensures a == 0 && f == 0 && b == 0 && c == 0 && d == 0 && e == 0 && h == 0 && l == 0
    {
      pc, sp := 0, 0;
      a, f, b, c, d, e, h, l := 0, 0, 0, 0, 0, 0, 0, 0;
    }

    /** `write16`: stores `value` in the named register and leaves every
        other register as it was. */
    method Write16(reg: Reg16, value: u16)
      modifies this
      ensures State() == Written16(old(State()), reg, value)
      ensures sp == value && pc == old(pc)
      ensures a == old(a) && f == old(f) && b == old(b) && c == old(c)
      ensures d == old(d) && e == old(e) && h == old(h) && l == old(l)
    {
      match reg
      case SP => sp := value;
    }
  }
}
