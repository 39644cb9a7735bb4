/** Bytes, 64-bit words, and the limits that several parts of the program share. */
module Machine {

  type Byte = b: int | 0 <= b < 256
  type Bytes = seq<Byte>

  const WORD: nat := 0x1_0000_0000_0000_0000
  const HALF: nat := 0x8000_0000_0000_0000
  const PATH_MAX: nat := 4096
  const MAX_FRAME: nat := 0x100_0000

  /** Bytes of a verification sample, and samples of one verification request. */
  const BLOCK: nat := 4096
  const BATCH_MAX: nat := 256
}
