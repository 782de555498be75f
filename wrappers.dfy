/** Failure-compatible results shared by every module of the model.
    A Rust `panic!` (an index out of bounds, an explicit panic, an arithmetic
    overflow) ends the emulator; the model returns `Panic(fault)` instead. */
module Wrappers {

  /** Why the modelled code would panic. */
  datatype Fault =
    | IndexOutOfBounds     // slice or index past the end of a buffer
    | ArithmeticOverflow   // a plain `+`/`-` on an unsigned integer leaving its range
    | NotAMemoryMode       // resolve_mem_address on a register or implicit mode
    | ExhaustedModes       // read_op / write_op on a mode they do not handle
    | StatusWrite          // writing the read-only PPU status port
    | NoPrgRam             // the mapper-0 ROM has no PRG-RAM below 0x2000
    | UnsupportedMapper    // cpu_address_range for a mapper other than 0

  datatype Result<+T> = Ok(value: T) | Panic(fault: Fault) {
    predicate IsFailure() { Panic? }

    function PropagateFailure<U>(): Result<U>
      requires Panic?
    {
      Panic(fault)
    }

    function Extract(): T
      requires Ok?
    {
      value
    }
  }

  datatype Option<+T> = None | Some(value: T)
}
