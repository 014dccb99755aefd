# Game Boy (LR35902) CPU step, interrupt controller and timer — a Dafny model

This project models the processor core of a Game Boy emulator written in Go
(`gb/cpu/cpu.go`), and proves properties of that model. The core is the
one-step loop `Tick`, together with three other parts:

- the interrupt controller: IE at 0xFFFF, IF at 0xFF0F, static priority,
  and service through a fixed vector;
- the timer: DIV, TIMA, TMA and TAC, driven by cycle accumulators that
  carry from step to step;
- the power-on register values.

Everything is pure and immutable. A `State.Machine` holds two things:

- a `Cpu`: the six register pairs, `ime`, `halt`, `branchTaken`, and a total
  65536-byte memory;
- the two timer accumulators.

`Engine.Tick` maps a machine to the next machine and the number of cycles
the step consumed. The 16-bit register values wrap modulo 0x10000, and bytes
are 8-bit bit-vectors.

Modules, leaves first:

| file | module | content |
|---|---|---|
| words.dfy | `Words` | bytes, 16-bit words, wrapping increment, high/low halves |
| bus.dfy | `Bus` | memory as a total map, addresses of DIV/TIMA/TMA/TAC/IF/IE |
| state.dfy | `State` | CPU and machine records, power-on values, stack push/pop |
| interrupts.dfy | `Interrupts` | interrupt lines, `interruptPending`, `interruptIsAboutToRaise`, `RequestInterrupt`, `serveInterrupt` |
| timer.dfy | `Timers` | `updateTimers`: divider and counter loops with closed forms |
| engine.dfy | `Engine` | `fetchOpcode`, `runOpcode`, `Tick`, and the step properties |

The opcode implementations live outside `cpu.go`. Here they are arbitrary
state transformers `Cpu -> Cpu` in two 256-entry tables. Their costs are
three 256-entry tables of naturals. So every property about `Tick` holds
whatever the opcodes do.

Some behaviour of the code is easy to miss, and the model keeps it exactly
as written:

- **Service and execute share a step.** One might expect no fetch in a
  step that enters a service routine. The code, however, calls
  `runOpcode(fetchOpcode())` right after `serveInterrupt` (cpu.go:63-64),
  so it fetches and runs the byte at the interrupt vector in the same
  step. A servicing step therefore costs 20 plus the cost of that opcode.
  See `Engine.Execute` and `Engine.TickServesThenRunsVector`.
- **`branchTaken` is never cleared.** `runOpcode` never clears it before
  a primary dispatch (cpu.go:83-96), so the cost is chosen by whatever
  value the dispatched opcode leaves behind, possibly a value left by an
  earlier instruction. See `Engine.StaleBranchFlagSelectsBranchedCost`.
- **Waking ignores IME.** A halted CPU wakes when something is pending,
  whatever IME says. If IME is clear, the step then fetches and runs
  normally, with no service.
- **The stack can overwrite IF.** `serveInterrupt` writes IF first and
  pushes `pc` afterwards. If the stack pointer makes the push land on
  0xFF0F, the pushed byte replaces the acknowledged IF value. For that
  reason the acknowledgement is stated under the condition
  `PushAvoids(c, IF)`.

## Model

| member | source | states |
|---|---|---|
| Words.Increment | gb/cpu/cpu.go:77-81 | A register increment adds one and wraps 0xFFFF to 0. |
| State.PowerOn | gb/cpu/cpu.go:26-46 | After power-on: pc=0x0100, sp=0xFFFE, af=0x01B0, bc=0x0013, de=0x00D8, hl=0x014D. IME, halt and branchTaken start clear, and the timer accumulators start at zero. |
| State.PopAfterPush | gb/cpu/cpu.go:131 | Popping right after the push of `pc` returns the pushed value and restores sp. The pushed return address is therefore recoverable. |
| Interrupts.Pending | gb/cpu/cpu.go:104-122 | The result is None exactly when IE & IF & 0x1F is 0. Otherwise the returned line's bit is set in IE & IF, and no lower-indexed bit is set there (strict static priority). |
| Interrupts.PendingIsFirstRaised | gb/cpu/cpu.go:104-122 | The five-branch if-chain equals an independent scan of bit positions 0..4 for the first bit set in IE & IF. |
| Interrupts.PendingIgnoresHighBits | gb/cpu/cpu.go:107-119 | Two register pairs that agree on bits 0..4 of IE & IF resolve to the same line, so bits 5..7 never matter. |
| Interrupts.AboutToRaise | gb/cpu/cpu.go:98-102 | `interruptIsAboutToRaise` is true exactly when `interruptPending` returns a line other than None. |
| Interrupts.RequestInterrupt | gb/cpu/cpu.go:73-75 | Afterwards IF has every requested bit and every previously set bit, and no other bit. All other memory and all registers are unchanged. |
| Interrupts.RequestIdempotent | gb/cpu/cpu.go:73-75 | Requesting the same bits twice has the same effect as requesting them once. |
| Interrupts.RequestMakesPending | gb/cpu/cpu.go:73-75 | After a line enabled in IE is requested, some line is pending, and its priority is at least that of the requested line. |
| Interrupts.ServeInterrupt | gb/cpu/cpu.go:124-160 | With IME clear, or with no line, nothing changes and 0 cycles are charged. Otherwise the service charges 20 cycles, clears IME, and sets pc to 0x40 + 8·index. A pop returns the old pc and restores sp. If the push does not land on IF, exactly the line's bit is cleared in IF. No memory outside IF and the two stack bytes changes. |
| Interrupts.ServiceAcknowledges | gb/cpu/cpu.go:124-160 | Serving the pending line, with the stack clear of IF and IE, leaves a different line (or none) pending. |
| Timers.Threshold | gb/cpu/cpu.go:180-191 | TAC bits 0..1 select 1024, 16, 64 or 256 cycles per TIMA increment. |
| Timers.DivLoop | gb/cpu/cpu.go:165-172 | The divider loop leaves the accumulator at its value mod 256. DIV advances by the quotient, modulo 256. Nothing else changes. |
| Timers.DivideInPlace | gb/cpu/cpu.go:165-172 | The while-loop form of the divider loop computes the same result as `DivLoop`. |
| Timers.CountOnce | gb/cpu/cpu.go:195-204 | One crossing increments TIMA. When TIMA is 0xFF, the crossing instead reloads TIMA from TMA and sets the Timer bit in IF. TMA and all other memory are unchanged. |
| Timers.TimaLoop | gb/cpu/cpu.go:193-205 | The counter loop leaves the accumulator at its value mod the threshold, and makes n = quotient crossings. TIMA becomes start+n if that stays at or below 0xFF; otherwise it becomes TMA + ((n − (256 − start)) mod (256 − TMA)). IF gains the Timer bit exactly when some crossing overflowed. |
| Timers.CountInPlace | gb/cpu/cpu.go:193-205 | The while-loop form of the counter loop computes the same result as `TimaLoop`. |
| Timers.UpdateTimers | gb/cpu/cpu.go:162-207 | The divider always runs: DivCycles becomes (old + clock) mod 256, and DIV advances by (old + clock) div 256, wrapping. With TAC bit 2 clear, TimaCycles, TIMA and IF are unchanged. With it set, TimaCycles ends below the threshold, and TIMA and IF take the closed form of `TimaLoop`. Only DIV, TIMA and IF can change in memory. |
| Timers.CountingWithoutOverflow | gb/cpu/cpu.go:200-202 | While no crossing reaches 0xFF, n crossings add exactly n to TIMA and request nothing. |
| Timers.CounterStaysInRange | gb/cpu/cpu.go:197-204 | The counter's closed form stays below 256. After an overflow it is never below TMA. |
| Timers.DividerCarriesRemainder | gb/cpu/cpu.go:163-172 | From an empty accumulator, 300 cycles advance DIV by one and carry 44. A following update with no cycles keeps the 44. |
| Timers.CounterOverflowReloads | gb/cpu/cpu.go:193-205 | A single crossing at TIMA=0xFF sets TIMA to TMA and sets the Timer bit in IF. |
| Engine.FetchOpcode | gb/cpu/cpu.go:77-81 | A fetch returns the byte at pc, advances pc by one with wrap from 0xFFFF to 0, and changes nothing else. |
| Engine.RunOpcode | gb/cpu/cpu.go:83-96 | After 0xCB, the extended handler of the next byte runs with pc past that byte, and its extended cost is charged. Otherwise the primary handler runs and the cost comes from the branched table or the base table, chosen by the flag the handler leaves. |
| Engine.HaltCheck | gb/cpu/cpu.go:53-59 | A running CPU passes through at no cost. A halted CPU with a line about to be raised is woken at no cost. A halted CPU with nothing pending stays halted and is charged 4 cycles. |
| Engine.Execute | gb/cpu/cpu.go:63-64 | With IME set and a line pending, pc is the line's vector after service, the opcode run is the byte at the vector (with pc past it), and the cost is 20 plus that opcode's cost. Otherwise the opcode at pc is run and exactly its cost is charged. |
| Engine.Ran | gb/cpu/cpu.go:51-65 | Halted with nothing about to be raised, the state is kept and 4 cycles are charged. In every other case the result is exactly the execution of the machine with halt cleared. |
| Engine.Tick | gb/cpu/cpu.go:50-70 | The step reports exactly the cycles of the halt check, service and execution. The machine after the step is `UpdateTimers` applied, with exactly those cycles, to the state the execution left, so DIV, TIMA, IF and both accumulators follow the timer closed forms. A halted step with nothing pending reports 4. |
| Engine.TickIdles | gb/cpu/cpu.go:53-67 | Halted with nothing pending, the step costs 4 and only the timers move: pc is kept, halt stays set, and IME is unchanged. |
| Engine.TickWakes | gb/cpu/cpu.go:53-65 | Halted with a line pending, whatever IME says, the step equals the running step of the same machine. No idle cost is charged. |
| Engine.TickServesThenRunsVector | gb/cpu/cpu.go:61-65 | Running with IME set and a line pending, the whole step is: service, then run the byte at the line's vector with pc past it, then advance the timers by 20 plus that opcode's cost, which the step reports. |
| Engine.TickRunsAtPc | gb/cpu/cpu.go:61-65 | Running with no service, the whole step is: run the byte at pc with pc past it, then advance the timers by that opcode's cost, which the step reports. |
| Engine.FirstTickFetchesEntryPoint | gb/cpu/cpu.go:39-46 | The first step after power-on runs the opcode at 0x0100 with pc at 0x0101, then advances the timers from empty accumulators by its cost. |
| Engine.CostFollowsBranchFlag | gb/cpu/cpu.go:88-95 | For the same primary opcode, the base cost is charged when the handler leaves the flag clear, and the branched cost when it leaves the flag set. |
| Engine.StaleBranchFlagSelectsBranchedCost | gb/cpu/cpu.go:83-96 | If the handler does not touch the flag and the previous instruction left it set, the branched cost is charged. |
| Engine.PrefixConsumesTwoBytes | gb/cpu/cpu.go:84-87 | After the 0xCB prefix, the extended handler runs with pc past both bytes, and the step costs exactly that handler's extended cost. |

## Left out

- Opcode implementations and their tables (`opcodeArray`, `opcodeCBArray`, `machineCycles`, `machineCyclesBranched`, `machineCyclesCB`) are defined outside `cpu.go`. They are parameters here: arbitrary `Cpu -> Cpu` transformers and arbitrary 256-entry cost tables.
- Opcode handlers are assumed not to touch `clockCycles` or the timer accumulators. Their type `Cpu -> Cpu` gives them no access to either.
- `SixteenBitReg` is not part of this model. A register pair is a 16-bit value with a wrapping increment. Its 8-bit and flags views are used by opcodes only, and are not modelled.
- State.Push: `stackPush` is not part of this model. The push is assumed to write the high byte at sp−1 and the low byte at sp−2, then lower sp by 2, all wrapping. `Pop` is its assumed inverse.
- The `memory` package is not part of this model, so its address decoding and any side effects of its writes are not modelled. Memory is a plain total map: a read returns the last value written. In particular the DIV store of `updateTimers` (cpu.go:171) is treated as a plain store; on real hardware a CPU write to DIV clears it, and a bus that did so for this store would undo every divider increment, so the DIV closed form assumes a plain store.
- The `timer` package's storage is not modelled. `DivCycles` and `TimaCycles` are unbounded naturals in the machine record, so uint32 overflow of the accumulators is not modelled. The same holds for the per-step `clockCycles` counter, which the model threads through `Tick` as a value, because `Tick` resets it to 0 first.
- `serveInterrupt` takes any byte, and a byte that is none of the five line constants does nothing. The model passes only the six values `interruptPending` can return, because that is the only call in `cpu.go`.
- Interrupts.ServeInterrupt: the IF acknowledgement is stated only when the two pushed bytes avoid 0xFF0F. When they do not, the push overwrites IF, and the body models that.
- The flag constants `flagZero`..`flagNone` (cpu.go:18-24) are used only by opcode implementations, so they are not modelled.
- The commented-out debug print, the package-level globals (folded into the machine record), and the external loop that calls `Tick` are not modelled.
