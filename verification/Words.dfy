/** Bytes and fixed-width unsigned words, with the wrap-around of the C types written out. */
module Words {

  newtype byte = x: int | 0 <= x < 256

  /** uint16_t */
  type Half = x: nat | x < 0x1_0000

  /** uint32_t. The sequence numbers and timestamps are declared int32_t but only ever copied,
      incremented and compared with uint32_t values, so they are words as well. */
  type Word = x: nat | x < 0x1_0000_0000

  function Plus(x: Word, n: int): Word {
    (x + n) % 0x1_0000_0000
  }

  function Minus(x: Word, y: Word): Word {
    (x - y) % 0x1_0000_0000
  }

  lemma PlusPlus(x: Word, m: nat, n: nat)
    ensures Plus(Plus(x, m), n) == Plus(x, m + n)
  {
  }

  lemma PlusZero(x: Word)
    ensures Plus(x, 0) == x
  {
  }

  lemma Remainder64(x: int, q: int, r: int)
    requires x == 64 * q + r && 0 <= r < 64
    ensures x % 64 == r
  {
  }

  /** Conversion of a uint32_t to int32_t. */
  function Signed(x: Word): int {
    if x < 0x8000_0000 then x else x - 0x1_0000_0000
  }

  /** Little-endian bytes of a word. */
  function LittleEndian(x: Word): (bytes: seq<byte>)
    ensures |bytes| == 4
  {
    [(x % 256) as byte, (x / 256 % 256) as byte, (x / 0x1_0000 % 256) as byte, (x / 0x100_0000) as byte]
  }

  /** Big-endian bytes of a word and of a half. */
  function BigEndian(x: Word): (bytes: seq<byte>)
    ensures |bytes| == 4
  {
    [(x / 0x100_0000) as byte, (x / 0x1_0000 % 256) as byte, (x / 256 % 256) as byte, (x % 256) as byte]
  }

  function BigEndianHalf(x: Half): (bytes: seq<byte>)
    ensures |bytes| == 2
  {
    [(x / 256) as byte, (x % 256) as byte]
  }

  function FromBigEndian(b0: byte, b1: byte, b2: byte, b3: byte): Word {
    b0 as int * 0x100_0000 + b1 as int * 0x1_0000 + b2 as int * 256 + b3 as int
  }

  function FromBigEndianHalf(b0: byte, b1: byte): Half {
    b0 as int * 256 + b1 as int
  }

  function Zeros(n: nat): (bytes: seq<byte>)
    ensures |bytes| == n
  {
    seq(n, _ => 0)
  }
}
