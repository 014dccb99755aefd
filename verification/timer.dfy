/**
 The divider (DIV) and the programmable counter (TIMA) driven by the cycles
 one step consumed (`updateTimers`).

 Both channels keep a carry accumulator across steps; each whole threshold
 found in the accumulator is one register increment. The two loops of the
 source are written as recursive functions of the same shape, and their
 contracts give the closed forms: the quotient counts the increments and the
 remainder stays in the accumulator.
 */
module Timers {
  import opened Words
  import opened Bus
  import opened State
  import opened Interrupts

  /** Cycles per DIV increment. */
  const DivThreshold: nat := 256

  /** TAC bit 2 starts and stops the counter. */
  const TimerEnable: Byte := 0x04

  /** Cycles per TIMA increment, selected by TAC bits 0..1. */
  function Threshold(tac: Byte): (f: nat)
    ensures f == 16 || f == 64 || f == 256 || f == 1024
    ensures tac & 0x03 == 0 <==> f == 1024
    ensures tac & 0x03 == 1 <==> f == 16
    ensures tac & 0x03 == 2 <==> f == 64
  {
    match tac & 0x03
    case 0 => 1024
    case 1 => 16
    case 2 => 64
    case 3 => 256
  }

  /** Subtracting the divisor once lowers the quotient by one and keeps the remainder. */
  lemma SubtractDivisor(x: nat, d: nat)
    requires 0 < d <= x
    ensures (x - d) / d == x / d - 1
    ensures (x - d) % d == x % d
  {
    var q, r := (x - d) / d, (x - d) % d;
    assert x - d == q * d + r;
    assert x == (q + 1) * d + r;
    DivisionIsUnique(x, d, q + 1, r);
  }

  /** The quotient and remainder are the only pair that reassembles `x`. */
  lemma DivisionIsUnique(x: int, d: nat, q: int, r: int)
    requires 0 < d && 0 <= r < d && x == q * d + r
    ensures q == x / d && r == x % d
  {
    var q', r' := x / d, x % d;
    var k := q - q';
    assert k * d == r' - r by {
      assert q * d - q' * d == (q - q') * d;
    }
    if k >= 1 {
      assert false;
    } else if k <= -1 {
      assert false;
    }
  }

  datatype Carry = Carry(cpu: Cpu, cycles: nat)

  /**
   The divider loop: while at least 256 cycles are accumulated, take 256 away
   and increment DIV (wrapping). Afterwards the accumulator holds the
   remainder and DIV has advanced by the quotient, modulo 256.
   */
  function DivLoop(c: Cpu, cycles: nat): (r: Carry)
    ensures r.cycles == cycles % DivThreshold
    ensures r.cpu.mem[DIV] as int == (c.mem[DIV] as int + cycles / DivThreshold) % 256
    ensures forall a: Word :: a != DIV ==> r.cpu.mem[a] == c.mem[a]
    ensures r.cpu == c.(mem := r.cpu.mem)
    decreases cycles
  {
    if cycles >= DivThreshold then
      var div := c.mem[DIV];
      ByteIncrement(div);
      SubtractDivisor(cycles, DivThreshold);
      DivLoop(c.(mem := Write(c.mem, DIV, div + 1)), cycles - DivThreshold)
    else
      Carry(c, cycles)
  }

  /**
   One threshold crossing of the counter: TIMA at 0xFF reloads from TMA and
   raises the Timer interrupt; otherwise TIMA is incremented.
   */
  function CountOnce(c: Cpu): (r: Cpu)
    ensures c.mem[TIMA] != 0xFF ==>
      r.mem[TIMA] as int == c.mem[TIMA] as int + 1 && r.mem[IF] == c.mem[IF]
    ensures c.mem[TIMA] == 0xFF ==>
      r.mem[TIMA] == c.mem[TMA] && r.mem[IF] == c.mem[IF] | Timer.Flag()
    ensures forall a: Word :: a != TIMA && a != IF ==> r.mem[a] == c.mem[a]
    ensures r == c.(mem := r.mem)
  {
    var tima := c.mem[TIMA];
    ByteIncrement(tima);
    if tima == 0xFF then
      var reloaded := c.mem[TMA];
      var requested := RequestInterrupt(c, Timer.Flag());
      requested.(mem := Write(requested.mem, TIMA, reloaded))
    else
      c.(mem := Write(c.mem, TIMA, tima + 1))
  }

  /**
   Closed form of TIMA after `n` crossings from `tima` with reload value
   `tma`: plain counting until the first overflow, then counting round the
   cycle tma, tma+1, ..., 0xFF of length 256 - tma.
   */
  function CounterAfter(tima: nat, tma: nat, n: nat): nat
    requires tima < 256 && tma < 256
  {
    if tima + n < 256 then tima + n
    else tma + (n - (256 - tima)) % (256 - tma)
  }

  /** TIMA overflows (and so requests the Timer interrupt) during `n` crossings from `tima`. */
  predicate Overflows(tima: nat, n: nat)
  {
    tima + n >= 256
  }

  /** Moving one crossing from the count into the start value keeps the closed form. */
  lemma CounterAfterStep(tima: nat, tma: nat, n: nat)
    requires tima < 256 && tma < 256 && n > 0
    ensures tima < 255 ==> CounterAfter(tima + 1, tma, n - 1) == CounterAfter(tima, tma, n)
    ensures tima == 255 ==> CounterAfter(tma, tma, n - 1) == CounterAfter(tima, tma, n)
  {
    var period := 256 - tma;
    if tima < 255 {
      if tima + n >= 256 {
        var skipped := n - (256 - tima);
        assert (n - 1) - (256 - (tima + 1)) == skipped;
      }
    } else if n - 1 < period {
      DivisionIsUnique(n - 1, period, 0, n - 1);
    } else {
      SubtractDivisor(n - 1, period);
    }
  }

  /**
   The counter loop: while at least `freq` cycles are accumulated, take
   `freq` away and perform one crossing. Afterwards the accumulator holds the
   remainder, TIMA has its closed-form value for the quotient of crossings,
   and IF has gained the Timer bit exactly when some crossing overflowed.
   */
  function TimaLoop(c: Cpu, cycles: nat, freq: nat): (r: Carry)
    requires freq > 0
    ensures r.cycles == cycles % freq
    ensures r.cpu.mem[TIMA] as int
         == CounterAfter(c.mem[TIMA] as int, c.mem[TMA] as int, cycles / freq)
    ensures r.cpu.mem[IF]
         == if Overflows(c.mem[TIMA] as int, cycles / freq)
            then c.mem[IF] | Timer.Flag() else c.mem[IF]
    ensures forall a: Word :: a != TIMA && a != IF ==> r.cpu.mem[a] == c.mem[a]
    ensures r.cpu == c.(mem := r.cpu.mem)
    decreases cycles
  {
    if cycles >= freq then
      var next := CountOnce(c);
      var n := cycles / freq;
      SubtractDivisor(cycles, freq);
      CounterAfterStep(c.mem[TIMA] as int, c.mem[TMA] as int, n);
      assert next.mem[TMA] == c.mem[TMA];
      TimaLoop(next, cycles - freq, freq)
    else
      Carry(c, cycles)
  }

  /**
   `updateTimers`: feed the cycles of one step to the divider, then, when TAC
   enables it, to the counter.
   */
  function UpdateTimers(m: Machine, clock: nat): (r: Machine)
    ensures r.timer.divCycles == (m.timer.divCycles + clock) % 256
    ensures r.timer.divCycles < 256
    ensures r.cpu.mem[DIV] as int
         == (m.cpu.mem[DIV] as int + (m.timer.divCycles + clock) / 256) % 256
    ensures m.cpu.mem[TAC] & TimerEnable == 0 ==>
      && r.timer.timaCycles == m.timer.timaCycles
      && r.cpu.mem[TIMA] == m.cpu.mem[TIMA]
      && r.cpu.mem[IF] == m.cpu.mem[IF]
    ensures m.cpu.mem[TAC] & TimerEnable != 0 ==>
      var freq := Threshold(m.cpu.mem[TAC]);
      var n := (m.timer.timaCycles + clock) / freq;
      && r.timer.timaCycles == (m.timer.timaCycles + clock) % freq
      && r.timer.timaCycles < freq
      && r.cpu.mem[TIMA] as int == CounterAfter(m.cpu.mem[TIMA] as int, m.cpu.mem[TMA] as int, n)
      && r.cpu.mem[IF] == if Overflows(m.cpu.mem[TIMA] as int, n)
                          then m.cpu.mem[IF] | Timer.Flag() else m.cpu.mem[IF]
    ensures forall a: Word :: a != DIV && a != TIMA && a != IF ==> r.cpu.mem[a] == m.cpu.mem[a]
    ensures r.cpu == m.cpu.(mem := r.cpu.mem)
  {
    var divided := DivLoop(m.cpu, m.timer.divCycles + clock);
    var tac := divided.cpu.mem[TAC];
    if tac & TimerEnable != 0 then
      var counted := TimaLoop(divided.cpu, m.timer.timaCycles + clock, Threshold(tac));
      Machine(counted.cpu, TimerState(divided.cycles, counted.cycles))
    else
      Machine(divided.cpu, TimerState(divided.cycles, m.timer.timaCycles))
  }

  /** The divider loop of `updateTimers` as a while loop over the accumulator. */
  method DivideInPlace(c0: Cpu, cycles: nat) returns (r: Carry)
    ensures r == DivLoop(c0, cycles)
  {
    var c := c0;
    var divCycles: nat := cycles;
    while divCycles >= DivThreshold
      invariant DivLoop(c, divCycles) == DivLoop(c0, cycles)
      decreases divCycles
    {
      ghost var before := DivLoop(c, divCycles);
      divCycles := divCycles - DivThreshold;
      var div := c.mem[DIV];
      div := div + 1;
      c := c.(mem := Write(c.mem, DIV, div));
      assert before == DivLoop(c, divCycles);
    }
    r := Carry(c, divCycles);
  }

  /** The counter loop of `updateTimers` as a while loop over the accumulator. */
  method CountInPlace(c0: Cpu, cycles: nat, freq: nat) returns (r: Carry)
    requires freq > 0
    ensures r == TimaLoop(c0, cycles, freq)
  {
    var c := c0;
    var timaCycles: nat := cycles;
    while timaCycles >= freq
      invariant TimaLoop(c, timaCycles, freq) == TimaLoop(c0, cycles, freq)
      decreases timaCycles
    {
      ghost var before := TimaLoop(c, timaCycles, freq);
      ghost var crossed := CountOnce(c);
      timaCycles := timaCycles - freq;
      var tima := c.mem[TIMA];
      if tima == 0xFF {
        tima := c.mem[TMA];
        c := RequestInterrupt(c, Timer.Flag());
      } else {
        tima := tima + 1;
      }
      c := c.(mem := Write(c.mem, TIMA, tima));
      assert c == crossed;
      assert before == TimaLoop(c, timaCycles, freq);
    }
    r := Carry(c, timaCycles);
  }

  /** Counting stays below the overflow point: TIMA grows by exactly `n` and nothing is requested. */
  lemma CountingWithoutOverflow(tima: nat, tma: nat, n: nat)
    requires tima < 256 && tma < 256 && tima + n <= 0xFF
    ensures CounterAfter(tima, tma, n) == tima + n
    ensures !Overflows(tima, n)
  {
  }

  /** The counter never leaves the byte range, and after an overflow it is at least TMA. */
  lemma CounterStaysInRange(tima: nat, tma: nat, n: nat)
    requires tima < 256 && tma < 256
    ensures CounterAfter(tima, tma, n) < 256
    ensures Overflows(tima, n) ==> tma <= CounterAfter(tima, tma, n)
  {
  }

  /**
   From an empty divider accumulator, 300 cycles advance DIV by one and
   leave 44 cycles carried; a following update with no cycles keeps them.
   */
  lemma DividerCarriesRemainder(m: Machine)
    requires m.timer.divCycles == 0
    ensures UpdateTimers(m, 300).timer.divCycles == 44
    ensures UpdateTimers(m, 300).cpu.mem[DIV] as int == (m.cpu.mem[DIV] as int + 1) % 256
    ensures UpdateTimers(UpdateTimers(m, 300), 0).timer.divCycles == 44
  {
  }

  /**
   One crossing while TIMA is 0xFF reloads TIMA from TMA and sets the Timer
   bit in IF.
   */
  lemma CounterOverflowReloads(m: Machine, clock: nat)
    requires m.cpu.mem[TAC] & TimerEnable != 0
    requires m.cpu.mem[TIMA] == 0xFF
    requires Threshold(m.cpu.mem[TAC]) <= m.timer.timaCycles + clock < 2 * Threshold(m.cpu.mem[TAC])
    ensures UpdateTimers(m, clock).cpu.mem[TIMA] == m.cpu.mem[TMA]
    ensures UpdateTimers(m, clock).cpu.mem[IF] & Timer.Flag() != 0
  {
    var freq := Threshold(m.cpu.mem[TAC]);
    DivisionIsUnique(m.timer.timaCycles + clock, freq, 1, m.timer.timaCycles + clock - freq);
    ByteValueInjective(UpdateTimers(m, clock).cpu.mem[TIMA], m.cpu.mem[TMA]);
  }
}
