# oxiboy core, modelled in Dafny

oxiboy is a Game Boy emulator written in Rust. The code at this stage is an
early skeleton: the CPU is a stub and the interconnect only holds the boot
ROM. The parts that do hold logic are modelled here:

- **PPU register surface** (`ppu.dfy`, module `Ppu`): class `PPU` with an
  8 KiB `array<bv8>` of video RAM, updated in place, plus the control,
  scanline and scroll registers. `Read` and `Write` report an out-of-range
  address as a panic. The contracts cover read-after-write and say that
  nothing else changes.
- **LCD control bit layout** (`lcd_control.dfy`, module `LcdControl`): the
  eight one-bit flags of the `Control` bitflags type. Lemmas show that each
  flag is one bit, that the flags are pairwise disjoint, and that together
  they name every bit. Every control byte is the union of the flags it
  contains, so two values with the same flags are equal.
- **Cartridge ROM** (`cartridge.dfy`, module `Cartridge`): an immutable
  blob. It is read at `addr - 0x0100`, with the two panics that rebase and
  index can raise.
- **CPU register file** (`cpu_registers.dfy`, module `CpuRegisters`): class
  `Registers` with PC, SP and eight 8-bit registers, all zero at
  construction. `Write16` is specified by the value function `Written16`.
  Lemmas prove that this function is idempotent and that the last write
  wins.
- **Debugger commands** (`command.dfy`, module `DebuggerCommand`):
  `FromStr`, the total parse from a string to a command. It is proved
  against an independent alias table: each alias parses to its own
  command, the alias sets are disjoint and number twelve, and everything
  else is rejected.

`prelude.dfy` (module `Prelude`) holds what the modules share. This is
Rust's `u16` as the integer subset type `u16`, and the `Result<T>` type
whose `Panic(fault)` case stands for a Rust panic. The faults are an index
out of bounds, a `u16` subtraction overflow and `unimplemented!()`. Bytes
(`u8`) are `bv8`.

In this version of the code the CPU, the flag register, the register pairs,
the instruction decoder and the address decoding are stubs or absent, so
they are not modelled. `Cartridge::new` is the datatype constructor
`Cartridge(rom)`, which keeps the bytes as given; the datatype is immutable,
so no read changes the ROM.

## Model

| member | source | states |
|---|---|---|
| `Ppu.PPU.constructor` | src/gameboy/hardware/ppu/mod.rs:21-30 | VRAM is a fresh buffer of exactly 8192 bytes, all 0xFF; control is empty; scanline, scroll-x and scroll-y are 0 |
| `Ppu.PPU.GetCurrentLine` | src/gameboy/hardware/ppu/mod.rs:32-34 | always 0: no operation writes the scanline counter, and `Valid` keeps it at its initial value |
| `Ppu.PPU.GetControl` | src/gameboy/hardware/ppu/mod.rs:36-38 | every call panics as unimplemented |
| `Ppu.PPU.SetControl` | src/gameboy/hardware/ppu/mod.rs:40-42 | every call panics as unimplemented, and nothing changes |
| `Ppu.PPU.GetScrollY` | src/gameboy/hardware/ppu/mod.rs:44-46 | returns the scroll-y register without changing anything; `SetScrollY` states its read-after-write |
| `Ppu.PPU.SetScrollY` | src/gameboy/hardware/ppu/mod.rs:44-50 | afterwards `GetScrollY()` returns the value written; control, scanline, scroll-x and all of VRAM are unchanged |
| `Ppu.PPU.Read` | src/gameboy/hardware/ppu/mod.rs:52-54 | succeeds exactly when `addr < 8192` and yields that VRAM byte; any larger address is an index-out-of-bounds panic |
| `Ppu.PPU.Write` | src/gameboy/hardware/ppu/mod.rs:56-58 | succeeds exactly when `addr < 8192`; then `Read(addr)` yields the value, and VRAM equals the old VRAM with only that byte replaced; every other address reads as before; registers are untouched; a larger address panics and stores nothing |
| `LcdControl.Mask` | src/gameboy/hardware/ppu/registers.rs:3-10 | each flag constant is non-zero with exactly one bit set |
| `LcdControl.Index` | src/gameboy/hardware/ppu/registers.rs:3-10 | the flag in declaration position `i` is bit `7 - i`, i.e. `0x80 >> i` |
| `LcdControl.AllFlagsEnumerated` | src/gameboy/hardware/ppu/registers.rs:2-11 | there are exactly eight flags, each listed once |
| `LcdControl.MasksDisjoint` | src/gameboy/hardware/ppu/registers.rs:3-10 | the AND of two distinct flag constants is 0 |
| `LcdControl.MaskOrder` | src/gameboy/hardware/ppu/registers.rs:3-10 | `LCD_DISPLAY_ENABLE` (0x80) is the most significant flag and `BACKGROUND_ENABLE` (0x01) the least |
| `LcdControl.AllFlagsCoverByte` | src/gameboy/hardware/ppu/registers.rs:2-11 | the OR of all eight constants is 0xFF |
| `LcdControl.EmptyContainsNothing` | src/gameboy/hardware/ppu/mod.rs:24 | `Control::empty()` contains none of the eight flags |
| `LcdControl.Contained` | src/gameboy/hardware/ppu/registers.rs:1-12 | selects exactly those flags of a list that the register contains |
| `LcdControl.UnionOfContained` | src/gameboy/hardware/ppu/registers.rs:1-12 | the union of the flags selected from a list is the register's bits restricted to that list's bits |
| `LcdControl.EveryBitNamed` | src/gameboy/hardware/ppu/registers.rs:1-12 | every control byte is the OR of the named flags it contains |
| `LcdControl.FlagsDetermineControl` | src/gameboy/hardware/ppu/registers.rs:1-12 | two control values that contain the same flags are equal |
| `Cartridge.Cartridge.Read` | src/gameboy/hardware/cartridge/mod.rs:12-15 | succeeds exactly when `0x0100 <= addr` and `addr - 0x0100` is below the ROM length, yielding `rom[addr - 0x0100]`; a lower address is a subtraction-overflow panic, a higher one an index-out-of-bounds panic |
| `Cartridge.ReadRomByte` | src/gameboy/hardware/cartridge/mod.rs:12-15 | every ROM byte `i` within the 16-bit space is read back at address `0x0100 + i` |
| `Cartridge.ReadFirstByte` | src/gameboy/hardware/cartridge/mod.rs:13-14 | `read(0x0100)` yields the first ROM byte |
| `CpuRegisters.Registers.constructor` | src/gameboy/hardware/cpu/registers.rs:24-42 | PC, SP, A, F, B, C, D, E, H and L all start at 0 |
| `CpuRegisters.Registers.Write16` | src/gameboy/hardware/cpu/registers.rs:44-50 | the new register state is `Written16` of the old one; SP holds the value; PC and all eight 8-bit registers are unchanged |
| `CpuRegisters.Written16` | src/gameboy/hardware/cpu/registers.rs:44-50 | writing SP sets SP to the value and keeps PC and every 8-bit register |
| `CpuRegisters.OnlyStackPointer` | src/gameboy/hardware/cpu/registers.rs:15-22 | `Reg16` has exactly one variant, SP |
| `CpuRegisters.Written16Idempotent` | src/gameboy/hardware/cpu/registers.rs:47-48 | writing the same value twice equals writing it once |
| `CpuRegisters.Written16LastWins` | src/gameboy/hardware/cpu/registers.rs:44-50 | of two writes to the same register, only the second is visible |
| `CpuRegisters.Written16Unchanged` | src/gameboy/hardware/cpu/registers.rs:44-50 | writing back the value SP already holds leaves the register file as it was |
| `DebuggerCommand.Aliases` | src/debugger/command.rs:16-21 | the alias table, one non-empty word set per command |
| `DebuggerCommand.FromStr` | src/debugger/command.rs:14-24 | accepts a string exactly when it is one of the aliases, and then yields a command that has it as an alias; every other string is `Err` |
| `DebuggerCommand.AliasesDisjoint` | src/debugger/command.rs:16-22 | no word is an alias of two commands |
| `DebuggerCommand.FromStrAlias` | src/debugger/command.rs:17-21 | "m" parses to DumpMem; "b", "bp", "break" and "breakpoint" to Breakpoint; "c" and "continue" to Continue; "s" and "step" to Step; "r", "reg" and "registers" to DumpReg |
| `DebuggerCommand.EveryCommandTypeable` | src/debugger/command.rs:3-21 | every command has a string that parses to it |
| `DebuggerCommand.TwelveWords` | src/debugger/command.rs:16-22 | the parser accepts exactly twelve distinct strings |
| `DebuggerCommand.ExactMatch` | src/debugger/command.rs:16-22 | matching is case-sensitive and untrimmed: "S", "Step", "STEP", " s", "s ", "step\n" and "" are all rejected |

## Left out

- Reg8: the source declares it as an enum with no variants. Dafny cannot declare an uninhabited datatype without an unchecked witness, and no operation takes a `Reg8`, so it is not modelled.
- The PPU `Mode` enum (src/gameboy/hardware/ppu/mod.rs:7-10) is never used, so it is not modelled.
- The `fmt::Debug` output of the PPU and the `fmt::Display` output of the registers are text formatting for tracing, so they are not modelled.
- Cartridge.Cartridge.Read: follows Rust's debug profile, where `addr - 0x0100` panics below 0x0100. A release build wraps instead, so `read(a)` for `a < 0x0100` would index `rom[a + 0xFF00]`. That only succeeds for a ROM over 0xFF00 bytes and is not modelled.
- Ppu.PPU.Write: a panicking write is modelled as storing nothing. In Rust the panic unwinds and ends the emulator, so the state afterwards is never observed.
- The source has no accessor for `scroll_x`; the model keeps the field, which only the constructor sets.
- The CPU (src/gameboy/hardware/cpu/mod.rs, instructions.rs, ops.rs) is a stub: `fetch` returns 0, `decode` returns NOP, `execute` returns 0, and ops.rs refers to an undefined type. Opcode semantics, flags and the stack are not in the code, so they are not part of this model.
- src/gameboy/hardware/bus.rs and src/gameboy/hardware/interconnect.rs declare a trait and a struct that holds the boot ROM. There is no address decoding in them to model.
- The debugger loop (src/debugger/mod.rs), the emulation and machine driver loops (src/emulation/mod.rs, src/gameboy/mod.rs) and process start-up (src/main.rs) are terminal and file I/O, or infinite loops over a `step` that does not exist. They are not part of this model. That includes the `trim()` the debugger applies to a line before parsing it.
