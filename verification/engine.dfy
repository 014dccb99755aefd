/**
 The execution engine: one `Tick` is the halt/wake decision, interrupt
 service, one fetch and dispatch through the opcode tables, and the timer
 update for the cycles the step consumed.

 What each opcode computes is outside this model: the tables hold
 arbitrary state transformers, and the cost tables arbitrary naturals.
 */
module Engine {
  import opened Words
  import opened Bus
  import opened State
  import opened Interrupts
  import opened Timers

  /** A full table of 256 opcode implementations. */
  type OpTable = s: seq<Cpu -> Cpu> | |s| == 256 witness seq(256, _ => (c: Cpu) => c)

  /** A full table of 256 cycle costs. */
  type CostTable = s: seq<nat> | |s| == 256 witness seq(256, _ => 0)

  datatype Tables = Tables(
    opcodes: OpTable,
    opcodesCB: OpTable,
    machineCycles: CostTable,
    machineCyclesBranched: CostTable,
    machineCyclesCB: CostTable)

  /** The escape byte that selects the extended table. */
  const PrefixCB: Byte := 0xCB

  /** Cost of one halted step with nothing pending. */
  const IdleCycles: nat := 4

  datatype Fetched = Fetched(cpu: Cpu, opcode: Byte)

  /** `fetchOpcode`: read the byte at pc and advance pc by one, wrapping at 0xFFFF. */
  function FetchOpcode(c: Cpu): (r: Fetched)
    ensures r.opcode == c.mem[c.pc]
    ensures c.pc < 0xFFFF ==> r.cpu.pc == c.pc + 1
    ensures c.pc == 0xFFFF ==> r.cpu.pc == 0
    ensures r.cpu == c.(pc := r.cpu.pc)
  {
    Fetched(c.(pc := Increment(c.pc)), c.mem[c.pc])
  }

  /**
   `runOpcode`: after the 0xCB prefix fetch a second byte and charge the
   extended cost; otherwise run the primary opcode and charge its branched
   cost if the branch-taken flag is set afterwards, else its base cost.
   The flag is not cleared before dispatch.
   */
  function RunOpcode(t: Tables, c: Cpu, opcode: Byte): (r: Charged)
    ensures opcode == PrefixCB ==>
      var second := c.mem[c.pc];
      && r.cpu == t.opcodesCB[second](c.(pc := Increment(c.pc)))
      && r.cycles == t.machineCyclesCB[second]
    ensures opcode != PrefixCB ==> r.cpu == t.opcodes[opcode](c)
    ensures opcode != PrefixCB && r.cpu.branchTaken ==> r.cycles == t.machineCyclesBranched[opcode]
    ensures opcode != PrefixCB && !r.cpu.branchTaken ==> r.cycles == t.machineCycles[opcode]
  {
    if opcode == PrefixCB then
      var second := FetchOpcode(c);
      Charged(t.opcodesCB[second.opcode](second.cpu), t.machineCyclesCB[second.opcode])
    else
      var done := t.opcodes[opcode](c);
      var cost := if done.branchTaken then t.machineCyclesBranched[opcode] else t.machineCycles[opcode];
      Charged(done, cost)
  }

  datatype Stepped = Stepped(machine: Machine, cycles: nat)

  /** The halt decision at the start of a step: wake on a pending line, else idle. */
  function HaltCheck(c: Cpu): (r: Charged)
    ensures !c.halt ==> r == Charged(c, 0)
    ensures c.halt && AboutToRaise(c) ==> r == Charged(c.(halt := false), 0)
    ensures c.halt && !AboutToRaise(c) ==> r == Charged(c, IdleCycles)
  {
    if c.halt then
      if PendingIn(c) != None then Charged(c.(halt := false), 0)
      else Charged(c, IdleCycles)
    else Charged(c, 0)
  }

  /**
   Service whatever is pending, then fetch and run one opcode. With IME set
   and a line pending, the opcode run is the one at the line's vector and the
   service's 20 cycles are added to its cost; otherwise the opcode at pc is
   run and only its cost is charged.
   */
  function Execute(t: Tables, c: Cpu): (r: Charged)
    ensures c.ime && PendingIn(c) != None ==>
      var k := PendingIn(c);
      var served := ServeInterrupt(c, k).cpu;
      var ran := RunOpcode(t, served.(pc := Increment(k.Vector())), served.mem[k.Vector()]);
      && served.pc == k.Vector()
      && r.cpu == ran.cpu
      && r.cycles == ServiceCycles + ran.cycles
    ensures !c.ime || PendingIn(c) == None ==>
      r == RunOpcode(t, c.(pc := Increment(c.pc)), c.mem[c.pc])
  {
    var served := ServeInterrupt(c, PendingIn(c));
    var fetched := FetchOpcode(served.cpu);
    var ran := RunOpcode(t, fetched.cpu, fetched.opcode);
    Charged(ran.cpu, served.cycles + ran.cycles)
  }

  /**
   Everything a step does before the timer update: stay idle when halted
   with nothing pending, otherwise (waking first if halted) execute.
   */
  function Ran(t: Tables, c: Cpu): (r: Charged)
    ensures c.halt && !AboutToRaise(c) ==> r == Charged(c, IdleCycles)
    ensures !(c.halt && !AboutToRaise(c)) ==> r == Execute(t, c.(halt := false))
  {
    var awake := HaltCheck(c);
    if !awake.cpu.halt then
      var executed := Execute(t, awake.cpu);
      Charged(executed.cpu, awake.cycles + executed.cycles)
    else awake
  }

  /**
   `Tick`: one step of the processor. It reports the cycles of the halt
   check, service and execution, and advances the timers by exactly those
   cycles from the state the execution left.
   */
  function Tick(t: Tables, m: Machine): (r: Stepped)
    ensures r.cycles == Ran(t, m.cpu).cycles
    ensures r.machine == UpdateTimers(Machine(Ran(t, m.cpu).cpu, m.timer), r.cycles)
    ensures m.cpu.halt && !AboutToRaise(m.cpu) ==> r.cycles == IdleCycles
  {
    var ran := Ran(t, m.cpu);
    Stepped(UpdateTimers(Machine(ran.cpu, m.timer), ran.cycles), ran.cycles)
  }

  /**
   Halted with nothing pending: the step costs exactly 4 cycles, fetches
   nothing, keeps pc and stays halted; only the timers move.
   */
  lemma TickIdles(t: Tables, m: Machine)
    requires m.cpu.halt && PendingIn(m.cpu) == None
    ensures Tick(t, m) == Stepped(UpdateTimers(m, IdleCycles), IdleCycles)
    ensures Tick(t, m).machine.cpu.pc == m.cpu.pc
    ensures Tick(t, m).machine.cpu.halt
    ensures Tick(t, m).machine.cpu.ime == m.cpu.ime
  {
  }

  /**
   Halted with a line pending, whatever IME says: the halt flag is cleared
   and the step is exactly the step of the running machine, with no idle cost.
   */
  lemma TickWakes(t: Tables, m: Machine)
    requires m.cpu.halt && PendingIn(m.cpu) != None
    ensures Tick(t, m) == Tick(t, m.(cpu := m.cpu.(halt := false)))
    ensures Tick(t, m).cycles == Execute(t, m.cpu.(halt := false)).cycles
  {
  }

  /**
   Running with IME set and a line pending: the line is serviced, and in the
   same step the opcode stored at its vector is fetched and run, so the step
   costs 20 plus that opcode's cost.
   */
  lemma TickServesThenRunsVector(t: Tables, m: Machine)
    requires !m.cpu.halt && m.cpu.ime && PendingIn(m.cpu) != None
    ensures
      var k := PendingIn(m.cpu);
      var served := ServeInterrupt(m.cpu, k).cpu;
      var ran := RunOpcode(t, served.(pc := Increment(k.Vector())), served.mem[k.Vector()]);
      var cycles := ServiceCycles + ran.cycles;
      Tick(t, m) == Stepped(UpdateTimers(Machine(ran.cpu, m.timer), cycles), cycles)
  {
  }

  /**
   Running with no service (IME clear or nothing pending): the step fetches
   the opcode at pc, runs it, costs exactly what that opcode costs, and the
   timers advance by that cost.
   */
  lemma TickRunsAtPc(t: Tables, m: Machine)
    requires !m.cpu.halt && (!m.cpu.ime || PendingIn(m.cpu) == None)
    ensures
      var ran := RunOpcode(t, m.cpu.(pc := Increment(m.cpu.pc)), m.cpu.mem[m.cpu.pc]);
      Tick(t, m) == Stepped(UpdateTimers(Machine(ran.cpu, m.timer), ran.cycles), ran.cycles)
  {
  }

  /** The first step after power-on fetches its opcode from 0x0100 and runs it with pc at 0x0101. */
  lemma FirstTickFetchesEntryPoint(t: Tables, mem: Memory)
    ensures
      var ran := RunOpcode(t, PowerOn(mem).cpu.(pc := 0x0101), mem[0x0100]);
      Tick(t, PowerOn(mem)) == Stepped(UpdateTimers(Machine(ran.cpu, TimerState(0, 0)), ran.cycles), ran.cycles)
  {
  }

  /**
   For the same primary opcode, the charged cost is the base entry when the
   opcode leaves the branch-taken flag clear and the branched entry when it
   leaves it set.
   */
  lemma CostFollowsBranchFlag(t: Tables, c: Cpu, c': Cpu, opcode: Byte)
    requires opcode != PrefixCB
    requires !t.opcodes[opcode](c).branchTaken && t.opcodes[opcode](c').branchTaken
    ensures RunOpcode(t, c, opcode).cycles == t.machineCycles[opcode]
    ensures RunOpcode(t, c', opcode).cycles == t.machineCyclesBranched[opcode]
  {
  }

  /**
   Because the flag is never cleared before dispatch, an opcode that does not
   touch it is charged its branched cost whenever the previous opcode left the
   flag set.
   */
  lemma StaleBranchFlagSelectsBranchedCost(t: Tables, c: Cpu, opcode: Byte)
    requires opcode != PrefixCB && c.branchTaken
    requires t.opcodes[opcode](c).branchTaken == c.branchTaken
    ensures RunOpcode(t, c, opcode).cycles == t.machineCyclesBranched[opcode]
  {
  }

  /** After the prefix, the extended opcode runs with pc past both bytes and pays its own cost. */
  lemma PrefixConsumesTwoBytes(t: Tables, m: Machine)
    requires !m.cpu.halt && (!m.cpu.ime || PendingIn(m.cpu) == None)
    requires m.cpu.mem[m.cpu.pc] == PrefixCB
    ensures
      var second := m.cpu.mem[Increment(m.cpu.pc)];
      && Execute(t, m.cpu).cpu == t.opcodesCB[second](m.cpu.(pc := Increment(Increment(m.cpu.pc))))
      && Tick(t, m).cycles == t.machineCyclesCB[second]
  {
  }
}
