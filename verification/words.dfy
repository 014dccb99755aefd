/**
 8-bit and 16-bit machine words of the LR35902 register file.

 Bytes are bit-vectors, because the interrupt logic works on bit masks.
 16-bit register values and addresses are integers in [0, 0xFFFF]; every
 arithmetic step on them wraps modulo 0x10000 explicitly.
 */
module Words {

  type Byte = bv8

  type Word = w: int | 0 <= w < 0x10000

  const WordModulus: int := 0x10000

  /** Adds `delta` (possibly negative) to a 16-bit value, wrapping around. */
  function WrapAdd(w: Word, delta: int): (r: Word)
    ensures 0 <= w + delta < WordModulus ==> r == w + delta
    ensures w + delta == WordModulus ==> r == 0
    ensures w + delta == -1 ==> r == 0xFFFF
    ensures (r - (w + delta)) % WordModulus == 0
  {
    (w + delta) % WordModulus
  }

  /** The wrapping increment of a 16-bit register (`SixteenBitReg.Increment`). */
  function Increment(w: Word): (r: Word)
    ensures w < 0xFFFF ==> r == w + 1
    ensures w == 0xFFFF ==> r == 0
  {
    WrapAdd(w, 1)
  }

  /** Incrementing a byte as a bit-vector wraps like integer addition modulo 256. */
  lemma ByteIncrement(x: Byte)
    ensures (x + 1) as int == (x as int + 1) % 256
  {
  }

  /** The byte whose unsigned value is `n`, built by counting up from zero. */
  function ByteOf(n: int): (b: Byte)
    requires 0 <= n < 256
    ensures b as int == n
    decreases n
  {
    if n == 0 then 0
    else
      var prev := ByteOf(n - 1);
      ByteIncrement(prev);
      prev + 1
  }

  /** Two bytes with the same unsigned value are the same byte. */
  lemma ByteValueInjective(a: Byte, b: Byte)
    requires a as int == b as int
    ensures a == b
  {
  }

  /** High half of a register pair. */
  function Hi(w: Word): (b: Byte)
    ensures b as int == w / 256
  {
    ByteOf(w / 256)
  }

  /** Low half of a register pair. */
  function Lo(w: Word): (b: Byte)
    ensures b as int == w % 256
  {
    ByteOf(w % 256)
  }

  /** The register pair whose halves are `hi` and `lo`. */
  function Join(hi: Byte, lo: Byte): (w: Word)
    ensures w / 256 == hi as int && w % 256 == lo as int
  {
    hi as int * 256 + lo as int
  }
}
