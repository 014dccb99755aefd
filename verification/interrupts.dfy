/**
 The interrupt controller: five interrupt lines, read from the IE and IF
 registers, resolved by strict static priority (lowest bit index wins), and
 serviced by pushing pc and jumping to a fixed vector.
 */
module Interrupts {
  import opened Words
  import opened Bus
  import opened State

  /** Cost charged for entering a service routine. */
  const ServiceCycles: nat := 20

  /** Mask of the five meaningful bits of IE and IF. */
  const LineMask: Byte := 0x1F

  datatype Interrupt = None | VBlank | LcdStat | Timer | Serial | Joypad
  {
    /** The request bit of the line, as the source's `Interrupt*` constants. */
    function Flag(): Byte
    {
      match this
      case None => 0x00
      case VBlank => 0x01
      case LcdStat => 0x02
      case Timer => 0x04
      case Serial => 0x08
      case Joypad => 0x10
    }

    /** Bit position of the line in IE and IF; lower is more urgent. */
    function Index(): (i: nat)
      requires !None?
      ensures i < 5
      ensures Flag() == BitMask(i)
    {
      match this
      case VBlank => 0
      case LcdStat => 1
      case Timer => 2
      case Serial => 3
      case Joypad => 4
    }

    /** The mask ANDed into IF to acknowledge the line. */
    function ClearMask(): (m: Byte)
      ensures !None? ==> m == !Flag()
    {
      match this
      case None => 0xFF
      case VBlank => 0xFE
      case LcdStat => 0xFD
      case Timer => 0xFB
      case Serial => 0xF7
      case Joypad => 0xEF
    }

    /** Address of the service routine. */
    function Vector(): (v: Word)
      requires !None?
      ensures v == 0x40 + 8 * Index()
    {
      match this
      case VBlank => 0x0040
      case LcdStat => 0x0048
      case Timer => 0x0050
      case Serial => 0x0058
      case Joypad => 0x0060
    }
  }

  /** The mask with only bit `i` set. */
  function BitMask(i: nat): Byte
    requires i < 8
  {
    (1 as Byte) << i
  }

  /** The line at bit position `i` (positions outside 0..4 name no line). */
  function LineAt(i: nat): (k: Interrupt)
    ensures i < 5 <==> k != None
    ensures k != None ==> k.Index() == i
  {
    if i == 0 then VBlank
    else if i == 1 then LcdStat
    else if i == 2 then Timer
    else if i == 3 then Serial
    else if i == 4 then Joypad
    else None
  }

  /**
   Reference definition of the priority rule: scanning bit positions upwards
   from `i`, the first line whose bit is set in `both`.
   */
  function FirstRaised(both: Byte, i: nat): Interrupt
    requires i <= 5
    decreases 5 - i
  {
    if i == 5 then None
    else if both & BitMask(i) != 0 then LineAt(i)
    else FirstRaised(both, i + 1)
  }

  /**
   The pending line of highest priority (`interruptPending`): the
   lowest-indexed bit among bits 0..4 set in both IE and IF, or None.
   */
  function Pending(ie: Byte, iflag: Byte): (k: Interrupt)
    ensures k == None <==> ie & iflag & LineMask == 0
    ensures k != None ==> ie & iflag & k.Flag() != 0
    ensures k != None ==> forall j :: 0 <= j < k.Index() ==> ie & iflag & BitMask(j) == 0
  {
    var both := ie & iflag;
    if both & 0x01 != 0 then VBlank
    else if both & 0x02 != 0 then LcdStat
    else if both & 0x04 != 0 then Timer
    else if both & 0x08 != 0 then Serial
    else if both & 0x10 != 0 then Joypad
    else None
  }

  /** The if-chain of `Pending` is exactly the lowest-set-bit scan. */
  lemma PendingIsFirstRaised(ie: Byte, iflag: Byte)
    ensures Pending(ie, iflag) == FirstRaised(ie & iflag, 0)
  {
  }

  /** Bits 5..7 of IE and IF never influence which line is pending. */
  lemma PendingIgnoresHighBits(ie: Byte, iflag: Byte, ie': Byte, iflag': Byte)
    requires ie & iflag & LineMask == ie' & iflag' & LineMask
    ensures Pending(ie, iflag) == Pending(ie', iflag')
  {
  }

  /** The pending line according to the machine's IE and IF registers. */
  function PendingIn(c: Cpu): Interrupt
  {
    Pending(c.mem[IE], c.mem[IF])
  }

  /**
   `interruptIsAboutToRaise`: some enabled line is requested. It agrees
   with the priority resolution.
   */
  function AboutToRaise(c: Cpu): (r: bool)
    ensures r <==> PendingIn(c) != None
  {
    c.mem[IF] & c.mem[IE] & LineMask != 0
  }

  /** `RequestInterrupt`: ORs the request bits `flag` into IF and changes nothing else. */
  function RequestInterrupt(c: Cpu, flag: Byte): (r: Cpu)
    ensures r.mem[IF] & flag == flag
    ensures r.mem[IF] & c.mem[IF] == c.mem[IF]
    ensures r.mem[IF] & !(c.mem[IF] | flag) == 0
    ensures forall a: Word :: a != IF ==> r.mem[a] == c.mem[a]
    ensures r == c.(mem := r.mem)
  {
    c.(mem := Write(c.mem, IF, c.mem[IF] | flag))
  }

  /** Requesting the same line twice is the same as requesting it once. */
  lemma RequestIdempotent(c: Cpu, flag: Byte)
    ensures RequestInterrupt(RequestInterrupt(c, flag), flag) == RequestInterrupt(c, flag)
  {
  }

  /**
   After requesting an enabled line, some line is pending, and it is that
   line or one of higher priority.
   */
  lemma RequestMakesPending(c: Cpu, k: Interrupt)
    requires k != None && c.mem[IE] & k.Flag() != 0
    ensures PendingIn(RequestInterrupt(c, k.Flag())) != None
    ensures PendingIn(RequestInterrupt(c, k.Flag())).Index() <= k.Index()
  {
  }

  /**
   `serveInterrupt`: with IME set and a line given, acknowledge the line in
   IF, clear IME, push pc, jump to the line's vector and charge 20 cycles.
   Otherwise nothing happens.
   */
  function ServeInterrupt(c: Cpu, k: Interrupt): (r: Charged)
    ensures !c.ime || k == None ==> r == Charged(c, 0)
    ensures c.ime && k != None ==>
      && r.cycles == ServiceCycles
      && !r.cpu.ime
      && r.cpu.pc == 0x40 + 8 * k.Index()
      && Pop(r.cpu).value == c.pc
      && Pop(r.cpu).cpu.sp == c.sp
      && (PushAvoids(c, IF) ==> r.cpu.mem[IF] == c.mem[IF] & !k.Flag())
      && (forall a: Word :: a != IF && PushAvoids(c, a) ==> r.cpu.mem[a] == c.mem[a])
      && r.cpu == c.(ime := false, pc := r.cpu.pc, sp := r.cpu.sp, mem := r.cpu.mem)
  {
    if c.ime && k != None then
      var ifReg := c.mem[IF];
      var acked := c.(mem := Write(c.mem, IF, ifReg & k.ClearMask()), ime := false);
      var pushed := Push(acked, c.pc);
      PopAfterPush(acked, c.pc);
      Charged(pushed.(pc := k.Vector()), ServiceCycles)
    else
      Charged(c, 0)
  }

  /** Servicing the pending line clears its request, so it is no longer the one pending unless requested again. */
  lemma ServiceAcknowledges(c: Cpu)
    requires c.ime && PendingIn(c) != None
    requires PushAvoids(c, IF) && PushAvoids(c, IE)
    ensures PendingIn(ServeInterrupt(c, PendingIn(c)).cpu) != PendingIn(c)
  {
  }
}
