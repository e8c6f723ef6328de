/** The fixed-width integer types that appear in the plugin's event and table types. */
module MachineInts {

  /** Rust's `u8`: note numbers, trigger keys and MIDI channels. */
  newtype uint8 = x: int | 0 <= x < 0x100

  /** Rust's `u32`: the sample offset of an event inside a processing block. */
  newtype uint32 = x: int | 0 <= x < 0x1_0000_0000

  /** Rust's `i32`: the host's voice identifier. */
  newtype int32 = x: int | -0x8000_0000 <= x < 0x8000_0000
}
