/**
 The machine state the CPU core owns: the register file, the interrupt
 master enable, the halt and branch-taken flags, the memory bus contents,
 and the two carry accumulators of the timer.
 */
module State {
  import opened Words
  import opened Bus

  datatype Cpu = Cpu(
    af: Word, bc: Word, de: Word, hl: Word,
    sp: Word, pc: Word,
    ime: bool, halt: bool, branchTaken: bool,
    mem: Memory)

  /** Cycle remainders carried from one step to the next. */
  datatype TimerState = TimerState(divCycles: nat, timaCycles: nat)

  datatype Machine = Machine(cpu: Cpu, timer: TimerState)

  /** A state together with the cycles charged for reaching it. */
  datatype Charged = Charged(cpu: Cpu, cycles: nat)

  /**
   The register values after power-on. The flags take their zero values,
   the timer accumulators start empty, and memory is whatever the bus holds.
   */
  function PowerOn(mem: Memory): (m: Machine)
    ensures m.cpu.pc == 0x0100 && m.cpu.sp == 0xFFFE
    ensures m.cpu.af == 0x01B0 && m.cpu.bc == 0x0013
    ensures m.cpu.de == 0x00D8 && m.cpu.hl == 0x014D
    ensures !m.cpu.ime && !m.cpu.halt && !m.cpu.branchTaken
    ensures m.cpu.mem == mem && m.timer == TimerState(0, 0)
  {
    Machine(
      Cpu(af := 0x01B0, bc := 0x0013, de := 0x00D8, hl := 0x014D,
          sp := 0xFFFE, pc := 0x0100,
          ime := false, halt := false, branchTaken := false,
          mem := mem),
      TimerState(0, 0))
  }

  /** True when a push from this stack pointer leaves address `a` alone. */
  predicate PushAvoids(c: Cpu, a: Word)
  {
    a != WrapAdd(c.sp, -1) && a != WrapAdd(c.sp, -2)
  }

  /**
   Pushes a 16-bit value: the stack grows downwards, the high byte goes to
   sp-1, the low byte to sp-2, and sp drops by two (all wrapping).
   */
  function Push(c: Cpu, w: Word): (r: Cpu)
    ensures r.sp == WrapAdd(c.sp, -2)
    ensures forall a: Word :: PushAvoids(c, a) ==> r.mem[a] == c.mem[a]
    ensures r == c.(sp := r.sp, mem := r.mem)
  {
    var hiAt := WrapAdd(c.sp, -1);
    var loAt := WrapAdd(c.sp, -2);
    c.(sp := loAt, mem := Write(Write(c.mem, hiAt, Hi(w)), loAt, Lo(w)))
  }

  datatype Popped = Popped(value: Word, cpu: Cpu)

  /** Pops a 16-bit value: low byte at sp, high byte at sp+1, sp grows by two. */
  function Pop(c: Cpu): (r: Popped)
    ensures r.cpu == c.(sp := WrapAdd(c.sp, 2))
    ensures r.value % 256 == c.mem[c.sp] as int
    ensures r.value / 256 == c.mem[WrapAdd(c.sp, 1)] as int
  {
    Popped(Join(c.mem[WrapAdd(c.sp, 1)], c.mem[c.sp]), c.(sp := WrapAdd(c.sp, 2)))
  }

  /** A pop right after a push returns the pushed value and restores the stack pointer. */
  lemma PopAfterPush(c: Cpu, w: Word)
    ensures Pop(Push(c, w)).value == w
    ensures Pop(Push(c, w)).cpu.sp == c.sp
  {
  }
}
