/** Value types shared by every part of the hdwrap model: bytes, Go's fixed-width
    unsigned index, optional values and the error results Go returns next to a value. */
module Common {

  /** One octet of a Go `[]byte`. */
  type byte = x: int | 0 <= x < 0x100

  /** Go's `uint32`, the child number handed to BIP32 derivation. */
  type uint32 = x: int | 0 <= x < 0x1_0000_0000

  /** Go's `int` on a 64-bit platform: the most positive value. */
  const MaxInt64: int := 0x7fff_ffff_ffff_ffff

  /** Go's 64-bit two's-complement `int` arithmetic: the value in
      [-2^63, 2^63) that agrees with `x` modulo 2^64. */
  function Wrap64(x: int): (r: int)
    ensures -MaxInt64 - 1 <= r <= MaxInt64
    ensures (x - r) % 0x1_0000_0000_0000_0000 == 0
    ensures -MaxInt64 - 1 <= x <= MaxInt64 ==> r == x
  {
    (x + MaxInt64 + 1) % 0x1_0000_0000_0000_0000 - (MaxInt64 + 1)
  }

  datatype Option<T> = None | Some(value: T)

  /** The errors the package produces itself, and the errors of foreign code,
      which it hands back unchanged. */
  datatype Error =
    | NotAPrivateKey              // "given key was not a private key"
    | ErrLength                   // encoding/hex: odd number of hex characters
    | InvalidByte(b: byte)        // encoding/hex: a character that is not a hex digit
    | EOF                         // io.ReadFull: the source yielded no byte at all
    | UnexpectedEOF               // io.ReadFull: the source ended part way
    | Foreign(message: string)    // any error raised inside a library

  /** Go's `(T, error)` pair where exactly one side is meaningful. */
  datatype Res<T> = Ok(value: T) | Fail(error: Error) {
    /** The `error` half of the pair: nil on success. */
    function Err(): Option<Error> {
      if Ok? then None else Some(error)
    }
  }

  /** Go's `(string, error)` return pair. */
  datatype Out = Out(str: string, err: Option<Error>)

  /** `return "", err` */
  function Failed(e: Error): Out {
    Out("", Some(e))
  }
}
