/** Rust primitives the model shares: the `u16` integer type and the panics
    that the source's operations can raise.

    The Rust code signals every failure by panicking: an out-of-range slice
    index, a `u16` subtraction that overflows (checked in debug builds) and an
    `unimplemented!()` body. A panic ends the emulator, so the model turns
    each one into an explicit `Panic` value that the caller can see, instead
    of forbidding the input with a precondition. Bytes (`u8`) are `bv8`. */
module Prelude {

  /** Rust's `u16`: addresses and 16-bit registers. */
  type u16 = x: int | 0 <= x < 0x1_0000

  /** Why an operation panicked. */
  datatype Fault =
    | IndexOutOfBounds(index: nat, len: nat)   // `slice[index]` with `index >= len`
    | SubtractOverflow                         // `a - b` on unsigned integers with `b > a`
    | Unimplemented(operation: string)         // an `unimplemented!()` body

  /** The value an operation returns, or the panic it raises. */
  datatype Result<T> = Ok(value: T) | Panic(fault: Fault)
}
