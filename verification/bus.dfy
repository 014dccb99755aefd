/**
 The memory bus as seen by the CPU core: a total map from 16-bit addresses
 to bytes, with the memory-mapped registers the core reads and writes.

 Address decoding and the side effects of other peripherals are not part of
 this model: a read returns the last value written to that address.
 */
module Bus {
  import opened Words

  type Memory = m: seq<Byte> | |m| == WordModulus witness seq(WordModulus, _ => 0)

  /** Divider register. */
  const DIV: Word := 0xFF04
  /** Timer counter register. */
  const TIMA: Word := 0xFF05
  /** Timer modulo (reload) register. */
  const TMA: Word := 0xFF06
  /** Timer control register. */
  const TAC: Word := 0xFF07
  /** Interrupt-flag register. */
  const IF: Word := 0xFF0F
  /** Interrupt-enable register. */
  const IE: Word := 0xFFFF

  /** Stores `v` at address `a`; reading `a` afterwards gives `v`, every other address keeps its byte. */
  function Write(m: Memory, a: Word, v: Byte): (r: Memory)
    ensures r[a] == v
    ensures forall b: Word :: b != a ==> r[b] == m[b]
  {
    m[a := v]
  }
}
