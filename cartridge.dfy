/** The cartridge ROM (src/gameboy/hardware/cartridge/mod.rs): an immutable
    byte blob that the machine sees from address 0x0100 on. */
module Cartridge {
  import opened Prelude

  /** The address of the first cartridge byte: the boot ROM occupies 0x0000..0x00FF. */
  const RomBase: u16 := 0x0100

  /** `Cartridge::new(rom)` keeps the blob as given; no operation changes it. */
  datatype Cartridge = Cartridge(rom: seq<bv8>) {

    /** `read`: rebases `addr` by -0x0100 and indexes the ROM. An address
        below 0x0100 makes the `u16` subtraction overflow, and one past the
        blob is an out-of-bounds index; both panic. */
    function Read(addr: u16): (r: Result<bv8>)
      ensures r.Ok? <==> RomBase <= addr && addr - RomBase < |rom|
      ensures r.Ok? ==> r.value == rom[addr - RomBase]
      ensures addr < RomBase ==> r == Panic(SubtractOverflow)
      ensures RomBase <= addr && r.Panic? ==> r.fault == IndexOutOfBounds(addr - RomBase, |rom|)
    {
      if addr < RomBase then Panic(SubtractOverflow)
      else
        var index := addr - RomBase;
        if index < |rom| then Ok(rom[index]) else Panic(IndexOutOfBounds(index, |rom|))
    }
  }

  /** ROM byte `i` is what the machine reads at address `0x0100 + i`, for
      every byte that the 16-bit address space reaches: the rebase is undone
      exactly. */
  lemma ReadRomByte(cart: Cartridge, i: nat)
    requires i < |cart.rom| && RomBase + i < 0x1_0000
    ensures cart.Read(RomBase + i) == Ok(cart.rom[i])
  {
  }

  /** Address 0x0100 reads the first ROM byte. */
  lemma ReadFirstByte(cart: Cartridge)
    requires |cart.rom| > 0
    ensures cart.Read(0x0100) == Ok(cart.rom[0])
  {
  }
}
