/** The picture-processing unit's register surface and video RAM
    (src/gameboy/hardware/ppu/mod.rs). Rendering and timing are not part of
    the source: the unit is a passive store that the rest of the machine
    reads and writes. */
module Ppu {
  import opened Prelude
  import opened LcdControl

  /** Bytes of video RAM: `vec![0xFF; 8192]`. */
  const VramSize: nat := 8192

  class PPU {
    /** The boxed slice is allocated once and never replaced; only its bytes change. */
    const vram: array<bv8>
    var control: Control
    var currentLine: bv8
    var scrollX: bv8
    var scrollY: bv8

    /** Object invariant: VRAM keeps its size, and no operation moves the
        scanline counter off its initial value. */
    ghost predicate Valid()
      reads this
    {
      vram.Length == VramSize && currentLine == 0
    }

    /** `PPU::new`: every VRAM byte is 0xFF, every register is zero. */
    constructor ()
      ensures Valid() && fresh(vram)
      ensures forall i :: 0 <= i < VramSize ==> vram[i] == 0xFF
      ensures control == Empty && currentLine == 0 && scrollX == 0 && scrollY == 0
    {
      vram := new bv8[VramSize](_ => 0xFF);
      control := Empty;
      currentLine := 0;
      scrollX := 0;
      scrollY := 0;
    }

    /** `get_current_line`: the scanline counter, which nothing advances. */
    function GetCurrentLine(): (line: bv8)
      reads this
      requires Valid()
      ensures line == 0
    {
      currentLine
    }

    /** `get_control`: its body is `unimplemented!()`, so every call panics. */
    function GetControl(): (r: Result<bv8>)
      ensures r.Panic? && r.fault.Unimplemented?
    {
      Panic(Unimplemented("get_control"))
    }

    /** `set_control`: its body is `unimplemented!()`, so every call panics
        before the register is touched. */
    method SetControl(val: bv8) returns (r: Result<()>)
      ensures r.Panic? && r.fault.Unimplemented?
    {
      r := Panic(Unimplemented("set_control"));
    }

    /** `get_scroll_y`: the vertical scroll register. */
    function GetScrollY(): (v: bv8)
      reads this
      ensures v == scrollY
    {
      scrollY
    }

    /** `set_scroll_y`: only the vertical scroll register changes. */
    method SetScrollY(val: bv8)
      requires Valid()
      modifies this
      ensures Valid()
      ensures GetScrollY() == val
      ensures control == old(control) && currentLine == old(currentLine) && scrollX == old(scrollX)
      ensures vram[..] == old(vram[..])
    {
      scrollY := val;
    }

    /** `read`: the VRAM byte at `addr`; an address past the 8 KiB bank is an
        out-of-bounds panic. */
    function Read(addr: u16): (r: Result<bv8>)
      reads this, vram
      requires Valid()
      ensures r.Ok? <==> addr < VramSize
      ensures r.Ok? ==> r.value == vram[addr]
      ensures r.Panic? ==> r.fault == IndexOutOfBounds(addr, VramSize)
    {
      if addr < vram.Length then Ok(vram[addr]) else Panic(IndexOutOfBounds(addr, vram.Length))
    }

    /** `write`: stores `val` at `addr` in place. Afterwards `Read(addr)`
        yields `val`, every other address reads as before, and no register
        changes. An address past the bank panics and stores nothing. */
    method Write(addr: u16, val: bv8) returns (r: Result<()>)
      requires Valid()
      modifies vram
      ensures Valid()
      ensures r.Ok? <==> addr < VramSize
      ensures r.Ok? ==> vram[..] == old(vram[..])[addr := val] && Read(addr) == Ok(val)
      ensures r.Panic? ==> vram[..] == old(vram[..]) && r.fault == IndexOutOfBounds(addr, VramSize)
      ensures forall a: u16 :: a != addr ==> Read(a) == old(Read(a))
    {
      if addr < vram.Length {
        vram[addr] := val;
        r := Ok(());
      } else {
        r := Panic(IndexOutOfBounds(addr, vram.Length));
      }
    }
  }
}
