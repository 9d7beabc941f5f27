// The SM83 CPU of gb/cpu.c: timed bus access, the stack, calls and returns, interrupt
// service, HALT and the halt bug, and STOP with the CGB speed switch. The instructions
// themselves are in GbExec and dispatch in GbDispatch.
// Every M-cycle the CPU spends goes through cyclesSync_4 (GbDma.CyclesSync4Valid).

module GbCpu {
  import opened Bits
  import opened GbState
  import opened GbBus
  import GbAlu
  import GbDma
  import GbTimer
  import GbMbc

  // ---------------------------------------------------------------------------------------
  // Timed bus access

  /** readAddr under the whole state invariant. Away from the timer registers (whose read
   *  syncs the timer first) the byte is the one the bus held before and I/O is untouched. */
  method ReadAddrValid(gb: GB, addr: word) returns (b: byte)
    requires gb.Valid()
    modifies gb.IO, gb`lastDIVSync, gb`lastTIMASync
    ensures gb.Valid()
    ensures !TimerAddress(addr) ==> b == old(Peek(gb, addr)) && unchanged(gb.IO)
  {
    b := ReadAddr(gb, addr);
  }

  /** readAddr_4C: readAddr, then one M-cycle. */
  method ReadAddr4C(gb: GB, addr: word) returns (b: byte)
    requires gb.Valid()
    modifies gb.IO, gb`lastDIVSync, gb`lastTIMASync
    modifies gb`clock, gb.OAM, gb`mCyclesSinceDMA, gb`dmaSource, gb`doingDMA, gb`scheduleDMA, gb`scheduled_dmaTimer
    ensures gb.Valid() && gb.clock == old(gb.clock) + 4
    ensures !TimerAddress(addr) ==> b == old(Peek(gb, addr)) && unchanged(gb.IO)
  {
    b := ReadAddrValid(gb, addr);
    GbDma.CyclesSync4Valid(gb);
  }

  /** writeAddr_4C: writeAddr, then one M-cycle. A store into work RAM or HRAM replaces
   *  exactly one byte and keeps the WRAM bank. */
  method WriteAddr4C(gb: GB, addr: word, b: byte)
    requires gb.Valid()
    modifies gb.IO, gb.wram, gb.vram, gb.hram, gb.OAM, gb.bgColorRAM, gb.spriteColorRAM, GbMbc.Repr(gb.mbc)
    modifies gb`IE, gb`lastDIVSync, gb`lastTIMASync, gb`joypadSelectedMode, gb`selectedWRAMBank,
             gb`selectedVRAMBank, gb`currentBackgroundCRAMIndex, gb`currentSpriteCRAMIndex
    modifies gb`ppuMode, gb`cyclesSinceLastMode, gb`lockVRAM, gb`lockOAM, gb`lockPalettes, gb`ppuEnabled,
             gb`skipFrame, gb`cyclesSinceLastFrame
    modifies gb`scheduled_dmaSource, gb`scheduled_dmaTimer, gb`scheduleDMA
    modifies gb`clock, gb`mCyclesSinceDMA, gb`dmaSource, gb`doingDMA
    ensures gb.Valid() && gb.clock == old(gb.clock) + 4
    ensures PlainRam(AreaOf(addr)) ==>
              gb.selectedWRAMBank == old(gb.selectedWRAMBank) && RamStored(gb, old(gb.wram[..]), old(gb.hram[..]), addr, b) &&
              unchanged(gb.IO)
  {
    WriteAddr(gb, addr, b);
    GbDma.CyclesSync4Valid(gb);
  }

  /** readByte: the byte at PC, PC then advanced by one; no cycles pass. */
  method ReadByte(gb: GB) returns (b: byte)
    requires gb.Valid()
    modifies gb.IO, gb`lastDIVSync, gb`lastTIMASync, gb`PC
    ensures gb.Valid() && gb.PC == old(gb.PC) + 1
    ensures !TimerAddress(old(gb.PC)) ==> b == old(Peek(gb, gb.PC)) && unchanged(gb.IO)
  {
    var pc := gb.PC;
    b := ReadAddrValid(gb, pc);
    gb.PC := pc + 1;
  }

  /** readByte_4C: readByte and one M-cycle. */
  method ReadByte4C(gb: GB) returns (b: byte)
    requires gb.Valid()
    modifies gb.IO, gb`lastDIVSync, gb`lastTIMASync, gb`PC
    modifies gb`clock, gb.OAM, gb`mCyclesSinceDMA, gb`dmaSource, gb`doingDMA, gb`scheduleDMA, gb`scheduled_dmaTimer
    ensures gb.Valid() && gb.PC == old(gb.PC) + 1 && gb.clock == old(gb.clock) + 4
    ensures !TimerAddress(old(gb.PC)) ==> b == old(Peek(gb, gb.PC)) && unchanged(gb.IO)
  {
    var pc := gb.PC;
    b := ReadAddr4C(gb, pc);
    gb.PC := pc + 1;
  }

  /** The two operand bytes at pc and pc + 1 read back what was in memory before the fetch:
   *  neither is a timer register (whose read first syncs the timers) and the second is not
   *  in OAM (which the DMA step after the first read may rewrite). */
  predicate PlainOperands(pc: word)
  {
    !TimerAddress(pc) && !TimerAddress(pc + 1) && AreaOf(pc + 1) != ObjectRam
  }

  /** A read of a, one fetch after the instruction began, sees what was there before it: a is
   *  not a timer register and not in OAM. */
  predicate PlainRead(a: word)
  {
    !TimerAddress(a) && AreaOf(a) != ObjectRam
  }

  /** Between two states, nothing that the byte at a outside OAM depends on has changed:
   *  the memories, the I/O registers, the bank registers, the locks and the controller. */
  twostate predicate PeekKept(gb: GB, a: word)
    requires old(gb.Shape() && gb.BanksOk()) && gb.Shape() && gb.BanksOk()
    reads gb, gb.IO, gb.hram, gb.wram, gb.vram, gb.bgColorRAM, gb.spriteColorRAM, GbMbc.Repr(gb.mbc)
    ensures PeekKept(gb, a) && AreaOf(a) != ObjectRam ==> Peek(gb, a) == old(Peek(gb, a))
  {
    unchanged(gb.IO, gb.hram, gb.wram, gb.vram) &&
    (gb.bgColorRAM != null ==> unchanged(gb.bgColorRAM, gb.spriteColorRAM)) &&
    unchanged(gb`IE, gb`mbc, gb`lockVRAM, gb`lockPalettes, gb`selectedWRAMBank, gb`selectedVRAMBank,
              gb`currentBackgroundCRAMIndex, gb`currentSpriteCRAMIndex) &&
    unchanged(GbMbc.Repr(gb.mbc))
  }

  /** readByte_4C, which leaves the byte at a plain address a as it was. */
  method FetchKeeping(gb: GB, ghost a: word) returns (op: byte)
    requires gb.Valid()
    modifies gb.IO, gb`lastDIVSync, gb`lastTIMASync, gb`PC
    modifies gb`clock, gb.OAM, gb`mCyclesSinceDMA, gb`dmaSource, gb`doingDMA, gb`scheduleDMA, gb`scheduled_dmaTimer
    ensures gb.Valid() && gb.PC == old(gb.PC) + 1 && gb.clock == old(gb.clock) + 4
    ensures !TimerAddress(old(gb.PC)) ==> op == old(Peek(gb, gb.PC))
    ensures !TimerAddress(old(gb.PC)) && PlainRead(a) ==> Peek(gb, a) == old(Peek(gb, a))
  {
    label pre:
    op := ReadByte4C(gb);
    assert !TimerAddress(old(gb.PC)) ==> PeekKept@pre(gb, a);
  }

  /** read2Bytes_8C: a 16-bit operand fetched low byte first; PC advances by two and two
   *  M-cycles pass. */
  method Read2Bytes8C(gb: GB) returns (w: word)
    requires gb.Valid()
    modifies gb.IO, gb`lastDIVSync, gb`lastTIMASync, gb`PC
    modifies gb`clock, gb.OAM, gb`mCyclesSinceDMA, gb`dmaSource, gb`doingDMA, gb`scheduleDMA, gb`scheduled_dmaTimer
    ensures gb.Valid() && gb.PC == old(gb.PC) + 2 && gb.clock == old(gb.clock) + 8
    ensures !TimerAddress(old(gb.PC)) ==> Lo(w) == old(Peek(gb, gb.PC))
    ensures PlainOperands(old(gb.PC)) ==> w == Join(old(Peek(gb, gb.PC + 1)), old(Peek(gb, gb.PC)))
  {
    label fetch:
    var lo := ReadByte4C(gb);
    assert PlainOperands(old(gb.PC)) ==> PeekKept@fetch(gb, gb.PC);
    var hi := ReadByte4C(gb);
    w := Join(hi, lo);
    HiLoJoin(hi, lo);
  }

  // ---------------------------------------------------------------------------------------
  // The stack

  /** Work RAM (C000-DFFF) and HRAM (FF80-FFFE): the stack memory whose bytes read back as
   *  they were written. */
  predicate StackRam(a: word)
  {
    0xC000 <= a <= 0xDFFF || 0xFF80 <= a <= 0xFFFE
  }

  /** The two bytes a and a + 1 of a stack entry both lie in one of those memories. */
  predicate StackSlot(a: word)
  {
    0xC000 <= a < 0xDFFF || 0xFF80 <= a < 0xFFFE
  }

  /** The stack byte at a in given work RAM and HRAM contents. */
  function StackByteIn(wram: seq<byte>, hram: seq<byte>, bank: byte, a: word): byte
    requires |hram| == 0x7F && StackRam(a)
    requires a < 0xFF80 ==> WramIndex(bank, WordNat(a)) < |wram|
  {
    if a >= 0xFF80 then hram[WordNat(a) - 0xFF80] else wram[WramIndex(bank, WordNat(a))]
  }

  /** The selected bank maps every work RAM address into the allocated WRAM. */
  lemma WramInRange(gb: GB, a: word)
    requires gb.Shape() && gb.BanksOk()
    ensures 0xC000 <= a <= 0xDFFF ==> WramIndex(gb.selectedWRAMBank, WordNat(a)) < gb.wram.Length
  {
  }

  /** The stack byte at a, straight from work RAM or HRAM. */
  function StackByte(gb: GB, a: word): byte
    requires gb.Shape() && gb.BanksOk() && StackRam(a)
    reads gb.wram, gb.hram, gb`selectedWRAMBank, gb`selectedVRAMBank, gb`currentBackgroundCRAMIndex,
          gb`currentSpriteCRAMIndex
  {
    WramInRange(gb, a);
    StackByteIn(gb.wram[..], gb.hram[..], gb.selectedWRAMBank, a)
  }

  /** readAddr on stack memory reads the stack byte; no timer register lives there. */
  lemma StackByteIsPeek(gb: GB, a: word)
    requires gb.Shape() && gb.BanksOk() && StackRam(a)
    ensures PlainRam(AreaOf(a)) && !TimerAddress(a) && Peek(gb, a) == StackByte(gb, a)
  {
  }

  /** Two neighbouring stack addresses are different bytes of memory. */
  lemma StackNeighbours(bank: byte, a: word)
    requires StackSlot(a)
    ensures StackRam(a) && StackRam(a + 1) && WordNat(a + 1) == WordNat(a) + 1
    ensures a >= 0xFF80 <==> a + 1 >= 0xFF80
    ensures a < 0xFF80 ==> WramIndex(bank, WordNat(a + 1)) != WramIndex(bank, WordNat(a))
  {
    WordSucc(a);
  }

  /** After a plain store of b at a stack address, the stack byte there is b. */
  lemma StoredByte(gb: GB, wram: seq<byte>, hram: seq<byte>, a: word, b: byte)
    requires gb.Shape() && gb.BanksOk() && StackRam(a)
    requires RamStored(gb, wram, hram, a, b)
    ensures StackByte(gb, a) == b
  {
    if a < 0xFF80 {
      WramInRange(gb, a);
    }
  }

  /** The 16-bit word a stack slot holds: high byte at top + 1, low byte at top. */
  function StackWord(gb: GB, top: word): word
    requires gb.Shape() && gb.BanksOk() && StackSlot(top)
    reads gb.wram, gb.hram, gb`selectedWRAMBank, gb`selectedVRAMBank, gb`currentBackgroundCRAMIndex, gb`currentSpriteCRAMIndex
  {
    StackNeighbours(gb.selectedWRAMBank, top);
    Join(StackByte(gb, top + 1), StackByte(gb, top))
  }

  /** A plain store at the low byte of a stack slot leaves the high byte as it was. */
  lemma StoreKeepsHigh(gb: GB, wram: seq<byte>, hram: seq<byte>, top: word, b: byte)
    requires gb.Shape() && gb.BanksOk() && StackSlot(top) && |hram| == 0x7F
    requires top < 0xFF80 ==> WramIndex(gb.selectedWRAMBank, WordNat(top + 1)) < |wram|
    requires RamStored(gb, wram, hram, top, b)
    ensures StackByte(gb, top + 1) == StackByteIn(wram, hram, gb.selectedWRAMBank, top + 1)
  {
    StackNeighbours(gb.selectedWRAMBank, top);
    WramInRange(gb, top + 1);
  }

  /** set_reg16 under the whole state invariant. */
  method SetReg16Valid(gb: GB, rr: Reg16, v: word) returns (r: word)
    requires gb.Valid()
    modifies gb.GPR
    ensures gb.Valid()
    ensures r == v && gb.GPR[..] == WithReg16(old(gb.GPR[..]), rr, v)
  {
    r := gb.SetReg16(rr, v);
  }

  /** The two M-cycle writes of push16: the high byte to top + 1, the low byte to top. */
  method PushBytes(gb: GB, top: word, hi: byte, lo: byte)
    requires gb.Valid()
    modifies gb.IO, gb.wram, gb.vram, gb.hram, gb.OAM, gb.bgColorRAM, gb.spriteColorRAM, GbMbc.Repr(gb.mbc)
    modifies gb`IE, gb`lastDIVSync, gb`lastTIMASync, gb`joypadSelectedMode, gb`selectedWRAMBank,
             gb`selectedVRAMBank, gb`currentBackgroundCRAMIndex, gb`currentSpriteCRAMIndex
    modifies gb`ppuMode, gb`cyclesSinceLastMode, gb`lockVRAM, gb`lockOAM, gb`lockPalettes, gb`ppuEnabled,
             gb`skipFrame, gb`cyclesSinceLastFrame
    modifies gb`scheduled_dmaSource, gb`scheduled_dmaTimer, gb`scheduleDMA
    modifies gb`clock, gb`mCyclesSinceDMA, gb`dmaSource, gb`doingDMA
    ensures gb.Valid() && gb.clock == old(gb.clock) + 8
    ensures StackSlot(top) ==> StackByte(gb, top + 1) == hi && StackByte(gb, top) == lo && StackWord(gb, top) == Join(hi, lo)
    ensures StackSlot(top) ==> unchanged(gb.IO)
  {
    if StackSlot(top) {
      StackNeighbours(gb.selectedWRAMBank, top);
      StackByteIsPeek(gb, top + 1);
    }
    WriteAddr4C(gb, top + 1, hi);
    if StackSlot(top) {
      StoredByte(gb, old(gb.wram[..]), old(gb.hram[..]), top + 1, hi);
      StackByteIsPeek(gb, top);
    }
    ghost var wram1, hram1 := gb.wram[..], gb.hram[..];
    WriteAddr4C(gb, top, lo);
    if StackSlot(top) {
      StoredByte(gb, wram1, hram1, top, lo);
      WramInRange(gb, top + 1);
      StoreKeepsHigh(gb, wram1, hram1, top, lo);
    }
  }

    /** The body of push16 once the new stack top is known: both writes, then SP := top. */
  method PushAt(gb: GB, top: word, v: word)
    requires gb.Valid()
    modifies gb.GPR, gb.IO, gb.wram, gb.vram, gb.hram, gb.OAM, gb.bgColorRAM, gb.spriteColorRAM, GbMbc.Repr(gb.mbc)
    modifies gb`IE, gb`lastDIVSync, gb`lastTIMASync, gb`joypadSelectedMode, gb`selectedWRAMBank,
             gb`selectedVRAMBank, gb`currentBackgroundCRAMIndex, gb`currentSpriteCRAMIndex
    modifies gb`ppuMode, gb`cyclesSinceLastMode, gb`lockVRAM, gb`lockOAM, gb`lockPalettes, gb`ppuEnabled,
             gb`skipFrame, gb`cyclesSinceLastFrame
    modifies gb`scheduled_dmaSource, gb`scheduled_dmaTimer, gb`scheduleDMA
    modifies gb`clock, gb`mCyclesSinceDMA, gb`dmaSource, gb`doingDMA
    ensures gb.Valid() && gb.clock == old(gb.clock) + 8
    ensures gb.GPR[..] == WithReg16(old(gb.GPR[..]), SP, top)
    ensures StackSlot(top) ==> StackWord(gb, top) == v && unchanged(gb.IO)
  {
    PushBytes(gb, top, Hi(v), Lo(v));
    var _ := SetReg16Valid(gb, SP, top);
    JoinHiLo(v);
  }

/** push16: the high byte goes to SP-1 and the low byte to SP-2, one M-cycle each, and SP
   *  moves down by two. On stack memory the two bytes then read back as the value. */
  method Push16(gb: GB, v: word) returns (ghost top: word)
    requires gb.Valid()
    modifies gb.GPR, gb.IO, gb.wram, gb.vram, gb.hram, gb.OAM, gb.bgColorRAM, gb.spriteColorRAM, GbMbc.Repr(gb.mbc)
    modifies gb`IE, gb`lastDIVSync, gb`lastTIMASync, gb`joypadSelectedMode, gb`selectedWRAMBank,
             gb`selectedVRAMBank, gb`currentBackgroundCRAMIndex, gb`currentSpriteCRAMIndex
    modifies gb`ppuMode, gb`cyclesSinceLastMode, gb`lockVRAM, gb`lockOAM, gb`lockPalettes, gb`ppuEnabled,
             gb`skipFrame, gb`cyclesSinceLastFrame
    modifies gb`scheduled_dmaSource, gb`scheduled_dmaTimer, gb`scheduleDMA
    modifies gb`clock, gb`mCyclesSinceDMA, gb`dmaSource, gb`doingDMA
    ensures gb.Valid() && gb.clock == old(gb.clock) + 8
    ensures top == Reg16Of(old(gb.GPR[..]), SP) - 2
    ensures gb.GPR[..] == WithReg16(old(gb.GPR[..]), SP, top)
    ensures StackSlot(top) ==> StackWord(gb, top) == v && unchanged(gb.IO)
  {
    var sp := gb.GetReg16(SP) - 2;
    top := sp;
    PushAt(gb, sp, v);
  }

  /** The two M-cycle reads of pop16: the low byte from top, the high byte from top + 1. */
  method PopBytes(gb: GB, top: word) returns (w: word)
    requires gb.Valid()
    modifies gb.IO, gb`lastDIVSync, gb`lastTIMASync
    modifies gb`clock, gb.OAM, gb`mCyclesSinceDMA, gb`dmaSource, gb`doingDMA, gb`scheduleDMA, gb`scheduled_dmaTimer
    ensures gb.Valid() && gb.clock == old(gb.clock) + 8
    ensures StackSlot(top) ==> w == old(StackWord(gb, top))
  {
    if StackSlot(top) {
      StackNeighbours(gb.selectedWRAMBank, top);
      StackByteIsPeek(gb, top);
    }
    var lo := ReadAddr4C(gb, top);
    if StackSlot(top) {
      StackByteIsPeek(gb, top + 1);
    }
    var hi := ReadAddr4C(gb, top + 1);
    w := Join(hi, lo);
  }

  /** pop16: the low byte from SP and the high byte from SP+1, one M-cycle each, and SP moves
   *  up by two. On stack memory the result is the two bytes found there. */
  method Pop16(gb: GB) returns (r: word, ghost sp: word)
    requires gb.Valid()
    modifies gb.GPR, gb.IO, gb`lastDIVSync, gb`lastTIMASync
    modifies gb`clock, gb.OAM, gb`mCyclesSinceDMA, gb`dmaSource, gb`doingDMA, gb`scheduleDMA, gb`scheduled_dmaTimer
    ensures gb.Valid() && gb.clock == old(gb.clock) + 8
    ensures sp == Reg16Of(old(gb.GPR[..]), SP)
    ensures gb.GPR[..] == WithReg16(old(gb.GPR[..]), SP, sp + 2)
    ensures StackSlot(sp) ==> r == old(StackWord(gb, sp))
  {
    var top := gb.GetReg16(SP);
    sp := top;
    r := PopBytes(gb, top);
    var _ := SetReg16Valid(gb, SP, top + 2);
  }

  /** A push followed by a pop on stack memory gives the pushed word back, and every register,
   *  SP included, is as it was. */
  method PushThenPop(gb: GB, v: word) returns (r: word)
    requires gb.Valid()
    modifies gb.GPR, gb.IO, gb.wram, gb.vram, gb.hram, gb.OAM, gb.bgColorRAM, gb.spriteColorRAM, GbMbc.Repr(gb.mbc)
    modifies gb`IE, gb`lastDIVSync, gb`lastTIMASync, gb`joypadSelectedMode, gb`selectedWRAMBank,
             gb`selectedVRAMBank, gb`currentBackgroundCRAMIndex, gb`currentSpriteCRAMIndex
    modifies gb`ppuMode, gb`cyclesSinceLastMode, gb`lockVRAM, gb`lockOAM, gb`lockPalettes, gb`ppuEnabled,
             gb`skipFrame, gb`cyclesSinceLastFrame
    modifies gb`scheduled_dmaSource, gb`scheduled_dmaTimer, gb`scheduleDMA
    modifies gb`clock, gb`mCyclesSinceDMA, gb`dmaSource, gb`doingDMA
    ensures gb.GPR[..] == old(gb.GPR[..])
    ensures StackSlot(Reg16Of(old(gb.GPR[..]), SP) - 2) ==> r == v
  {
    ghost var g := gb.GPR[..];
    ghost var top := Push16(gb, v);
    ghost var mid := gb.GPR[..];
    Reg16RoundTrip(g, SP, top);
    ghost var sp;
    r, sp := Pop16(gb);
    Reg16DownUp(g, mid, SP, Reg16Of(g, SP), sp);
  }

  // ---------------------------------------------------------------------------------------
  // Calls, returns and jumps

  /** The branch conditions of the conditional jumps, calls and returns. */
  datatype Condition = CondNZ | CondZ | CondNC | CondC

  /** CONDITION_NZ / _Z / _NC / _C on the flag register. */
  function ConditionHolds(F: byte, c: Condition): (b: bool)
    ensures c == CondZ || c == CondNZ ==> (b <==> GbAlu.GetFlag(F, GbAlu.FlagZ) == (c == CondZ))
    ensures c == CondC || c == CondNC ==> (b <==> GbAlu.GetFlag(F, GbAlu.FlagC) == (c == CondC))
  {
    match c
    case CondNZ => !GbAlu.GetFlag(F, GbAlu.FlagZ)
    case CondZ => GbAlu.GetFlag(F, GbAlu.FlagZ)
    case CondNC => !GbAlu.GetFlag(F, GbAlu.FlagC)
    case CondC => GbAlu.GetFlag(F, GbAlu.FlagC)
  }

  /** call: an M-cycle for the branch decision, PC pushed, then PC := addr. On stack memory the
   *  return address is the new top of the stack and I/O is untouched. */
  method Call(gb: GB, addr: word) returns (ghost top: word)
    requires gb.Valid()
    modifies gb.GPR, gb.IO, gb.wram, gb.vram, gb.hram, gb.OAM, gb.bgColorRAM, gb.spriteColorRAM, GbMbc.Repr(gb.mbc)
    modifies gb`IE, gb`lastDIVSync, gb`lastTIMASync, gb`joypadSelectedMode, gb`selectedWRAMBank,
             gb`selectedVRAMBank, gb`currentBackgroundCRAMIndex, gb`currentSpriteCRAMIndex
    modifies gb`ppuMode, gb`cyclesSinceLastMode, gb`lockVRAM, gb`lockOAM, gb`lockPalettes, gb`ppuEnabled,
             gb`skipFrame, gb`cyclesSinceLastFrame
    modifies gb`scheduled_dmaSource, gb`scheduled_dmaTimer, gb`scheduleDMA
    modifies gb`clock, gb`mCyclesSinceDMA, gb`dmaSource, gb`doingDMA, gb`PC
    ensures gb.Valid() && gb.clock == old(gb.clock) + 12 && gb.PC == addr
    ensures top == Reg16Of(old(gb.GPR[..]), SP) - 2
    ensures gb.GPR[..] == WithReg16(old(gb.GPR[..]), SP, top)
    ensures StackSlot(top) ==> StackWord(gb, top) == old(gb.PC) && unchanged(gb.IO)
  {
    var ret := gb.PC;
    SetPCValid(gb, addr);
    GbDma.CyclesSync4Valid(gb);
    top := Push16(gb, ret);
  }

  /** PC := v under the whole state invariant. */
  method SetPCValid(gb: GB, v: word)
    requires gb.Valid()
    modifies gb`PC
    ensures gb.Valid() && gb.PC == v
  {
    gb.PC := v;
  }

  /** callCondition: a call when the condition holds; otherwise nothing happens (the operand
   *  has already been fetched by the caller). */
  method CallCondition(gb: GB, addr: word, isTrue: bool) returns (ghost top: word)
    requires gb.Valid()
    modifies gb.GPR, gb.IO, gb.wram, gb.vram, gb.hram, gb.OAM, gb.bgColorRAM, gb.spriteColorRAM, GbMbc.Repr(gb.mbc)
    modifies gb`IE, gb`lastDIVSync, gb`lastTIMASync, gb`joypadSelectedMode, gb`selectedWRAMBank,
             gb`selectedVRAMBank, gb`currentBackgroundCRAMIndex, gb`currentSpriteCRAMIndex
    modifies gb`ppuMode, gb`cyclesSinceLastMode, gb`lockVRAM, gb`lockOAM, gb`lockPalettes, gb`ppuEnabled,
             gb`skipFrame, gb`cyclesSinceLastFrame
    modifies gb`scheduled_dmaSource, gb`scheduled_dmaTimer, gb`scheduleDMA
    modifies gb`clock, gb`mCyclesSinceDMA, gb`dmaSource, gb`doingDMA, gb`PC
    ensures gb.Valid()
    ensures !isTrue ==> gb.PC == old(gb.PC) && gb.GPR[..] == old(gb.GPR[..]) && gb.clock == old(gb.clock)
    ensures isTrue ==> gb.PC == addr && gb.clock == old(gb.clock) + 12 && top == Reg16Of(old(gb.GPR[..]), SP) - 2 &&
                       gb.GPR[..] == WithReg16(old(gb.GPR[..]), SP, top)
    ensures isTrue && StackSlot(top) ==> StackWord(gb, top) == old(gb.PC)
  {
    top := 0;
    if isTrue {
      top := Call(gb, addr);
    }
  }

  /** ret: PC popped, then an internal M-cycle. On stack memory PC becomes the word that was on
   *  top of the stack. */
  method Ret(gb: GB) returns (ghost sp: word)
    requires gb.Valid()
    modifies gb.GPR, gb.IO, gb`lastDIVSync, gb`lastTIMASync, gb`PC
    modifies gb`clock, gb.OAM, gb`mCyclesSinceDMA, gb`dmaSource, gb`doingDMA, gb`scheduleDMA, gb`scheduled_dmaTimer
    ensures gb.Valid() && gb.clock == old(gb.clock) + 12
    ensures sp == Reg16Of(old(gb.GPR[..]), SP)
    ensures gb.GPR[..] == WithReg16(old(gb.GPR[..]), SP, sp + 2)
    ensures StackSlot(sp) ==> gb.PC == old(StackWord(gb, sp))
  {
    var r;
    r, sp := Pop16(gb);
    SetPCValid(gb, r);
    GbDma.CyclesSync4Valid(gb);
  }

  /** retCondition: the branch-decision M-cycle always passes; the return happens only when the
   *  condition holds. */
  method RetCondition(gb: GB, isTrue: bool) returns (ghost sp: word)
    requires gb.Valid()
    modifies gb.GPR, gb.IO, gb`lastDIVSync, gb`lastTIMASync, gb`PC
    modifies gb`clock, gb.OAM, gb`mCyclesSinceDMA, gb`dmaSource, gb`doingDMA, gb`scheduleDMA, gb`scheduled_dmaTimer
    ensures gb.Valid() && gb.clock == old(gb.clock) + (if isTrue then 16 else 4)
    ensures !isTrue ==> gb.PC == old(gb.PC) && gb.GPR[..] == old(gb.GPR[..])
    ensures sp == Reg16Of(old(gb.GPR[..]), SP)
    ensures isTrue ==> gb.GPR[..] == WithReg16(old(gb.GPR[..]), SP, sp + 2)
    ensures isTrue && StackSlot(sp) ==> gb.PC == old(StackWord(gb, sp))
  {
    sp := gb.GetReg16(SP);
    if isTrue {
      sp := RetTaken(gb);
    } else {
      DecisionCycle(gb, 0);
    }
  }

  /** retCondition when the condition holds: the decision M-cycle, then ret. */
  method RetTaken(gb: GB) returns (ghost sp: word)
    requires gb.Valid()
    modifies gb.GPR, gb.IO, gb`lastDIVSync, gb`lastTIMASync, gb`PC
    modifies gb`clock, gb.OAM, gb`mCyclesSinceDMA, gb`dmaSource, gb`doingDMA, gb`scheduleDMA, gb`scheduled_dmaTimer
    ensures gb.Valid() && gb.clock == old(gb.clock) + 16
    ensures sp == Reg16Of(old(gb.GPR[..]), SP) && gb.GPR[..] == WithReg16(old(gb.GPR[..]), SP, sp + 2)
    ensures StackSlot(sp) ==> gb.PC == old(StackWord(gb, sp))
  {
    DecisionCycle(gb, Reg16Of(gb.GPR[..], SP));
    sp := Ret(gb);
  }

  /** The branch-decision M-cycle of retCondition; it leaves the stack word at sp alone. */
  method DecisionCycle(gb: GB, sp: word)
    requires gb.Valid()
    modifies gb`clock, gb.OAM, gb`mCyclesSinceDMA, gb`dmaSource, gb`doingDMA, gb`scheduleDMA, gb`scheduled_dmaTimer
    ensures gb.Valid() && gb.clock == old(gb.clock) + 4
    ensures StackSlot(sp) ==> StackWord(gb, sp) == old(StackWord(gb, sp))
  {
    GbDma.CyclesSync4Valid(gb);
  }

  /** A call followed by a return on stack memory comes back to the calling PC with every
   *  register, SP included, as it was. */
  method CallThenRet(gb: GB, addr: word)
    requires gb.Valid()
    modifies gb.GPR, gb.IO, gb.wram, gb.vram, gb.hram, gb.OAM, gb.bgColorRAM, gb.spriteColorRAM, GbMbc.Repr(gb.mbc)
    modifies gb`IE, gb`lastDIVSync, gb`lastTIMASync, gb`joypadSelectedMode, gb`selectedWRAMBank,
             gb`selectedVRAMBank, gb`currentBackgroundCRAMIndex, gb`currentSpriteCRAMIndex
    modifies gb`ppuMode, gb`cyclesSinceLastMode, gb`lockVRAM, gb`lockOAM, gb`lockPalettes, gb`ppuEnabled,
             gb`skipFrame, gb`cyclesSinceLastFrame
    modifies gb`scheduled_dmaSource, gb`scheduled_dmaTimer, gb`scheduleDMA
    modifies gb`clock, gb`mCyclesSinceDMA, gb`dmaSource, gb`doingDMA, gb`PC
    ensures gb.Valid() && gb.clock == old(gb.clock) + 24
    ensures gb.GPR[..] == old(gb.GPR[..])
    ensures StackSlot(Reg16Of(old(gb.GPR[..]), SP) - 2) ==> gb.PC == old(gb.PC)
  {
    ghost var g := gb.GPR[..];
    ghost var top := Call(gb, addr);
    ghost var mid := gb.GPR[..];
    Reg16RoundTrip(g, SP, top);
    ghost var sp := Ret(gb);
    Reg16DownUp(g, mid, SP, Reg16Of(g, SP), sp);
  }

  /** jumpCondition: the 16-bit target is always fetched (two M-cycles); when the condition
   *  holds a further M-cycle passes and PC becomes the target. */
  method JumpCondition(gb: GB, isTrue: bool) returns (target: word)
    requires gb.Valid()
    modifies gb.IO, gb`lastDIVSync, gb`lastTIMASync, gb`PC
    modifies gb`clock, gb.OAM, gb`mCyclesSinceDMA, gb`dmaSource, gb`doingDMA, gb`scheduleDMA, gb`scheduled_dmaTimer
    ensures gb.Valid() && gb.clock == old(gb.clock) + (if isTrue then 12 else 8)
    ensures gb.PC == if isTrue then target else old(gb.PC) + 2
    ensures !TimerAddress(old(gb.PC)) ==> Lo(target) == old(Peek(gb, gb.PC))
    ensures PlainOperands(old(gb.PC)) ==> target == Join(old(Peek(gb, gb.PC + 1)), old(Peek(gb, gb.PC)))
  {
    if isTrue {
      target := JumpTaken(gb);
    } else {
      target := Read2Bytes8C(gb);
    }
  }

  /** jumpCondition when the condition holds: the target fetched, an M-cycle, PC := target.
   *  (JUMP, opcode C3, takes the same steps.) */
  method JumpTaken(gb: GB) returns (target: word)
    requires gb.Valid()
    modifies gb.IO, gb`lastDIVSync, gb`lastTIMASync, gb`PC
    modifies gb`clock, gb.OAM, gb`mCyclesSinceDMA, gb`dmaSource, gb`doingDMA, gb`scheduleDMA, gb`scheduled_dmaTimer
    ensures gb.Valid() && gb.clock == old(gb.clock) + 12 && gb.PC == target
    ensures !TimerAddress(old(gb.PC)) ==> Lo(target) == old(Peek(gb, gb.PC))
    ensures PlainOperands(old(gb.PC)) ==> target == Join(old(Peek(gb, gb.PC + 1)), old(Peek(gb, gb.PC)))
  {
    target := Read2Bytes8C(gb);
    GbDma.CyclesSync4Valid(gb);
    SetPCValid(gb, target);
  }

  /** jumpRelativeCondition: the signed offset is always fetched; when the condition holds it
   *  is added to the PC after the operand, and a further M-cycle passes. */
  method JumpRelativeCondition(gb: GB, isTrue: bool) returns (offset: byte)
    requires gb.Valid()
    modifies gb.IO, gb`lastDIVSync, gb`lastTIMASync, gb`PC
    modifies gb`clock, gb.OAM, gb`mCyclesSinceDMA, gb`dmaSource, gb`doingDMA, gb`scheduleDMA, gb`scheduled_dmaTimer
    ensures gb.Valid() && gb.clock == old(gb.clock) + (if isTrue then 8 else 4)
    ensures gb.PC == if isTrue then AddSigned(old(gb.PC) + 1, offset) else old(gb.PC) + 1
    ensures !TimerAddress(old(gb.PC)) ==> offset == old(Peek(gb, gb.PC))
  {
    if isTrue {
      offset := JumpRelativeTaken(gb);
    } else {
      offset := ReadByte4C(gb);
    }
  }

  /** jumpRelativeCondition when the condition holds: the offset fetched and added to PC, then
   *  an M-cycle. (JUMP_RL, opcode 18, takes the same steps.) */
  method JumpRelativeTaken(gb: GB) returns (offset: byte)
    requires gb.Valid()
    modifies gb.IO, gb`lastDIVSync, gb`lastTIMASync, gb`PC
    modifies gb`clock, gb.OAM, gb`mCyclesSinceDMA, gb`dmaSource, gb`doingDMA, gb`scheduleDMA, gb`scheduled_dmaTimer
    ensures gb.Valid() && gb.clock == old(gb.clock) + 8
    ensures gb.PC == AddSigned(old(gb.PC) + 1, offset)
    ensures !TimerAddress(old(gb.PC)) ==> offset == old(Peek(gb, gb.PC))
  {
    offset := ReadByte4C(gb);
    SetPCValid(gb, AddSigned(gb.PC, offset));
    GbDma.CyclesSync4Valid(gb);
  }

  /** The RST n target: one of the eight vectors 0x00, 0x08, ..., 0x38. */
  function RestartVector(k: nat): (v: word)
    requires k < 8
    ensures WordNat(v) == 8 * k && v & 0xFFC7 == 0
  {
    [0x00, 0x08, 0x10, 0x18, 0x20, 0x28, 0x30, 0x38][k]
  }

  // ---------------------------------------------------------------------------------------
  // Interrupts

  /** The interrupts both requested (IF) and enabled (IE): IE & IF & 0x1F. */
  function PendingMask(ie: byte, iflag: byte): (p: byte)
    ensures p <= 0x1F
  {
    ie & iflag & 0x1F
  }

  /** A pending bit is one set in both IF and IE. */
  lemma PendingBit(ie: byte, iflag: byte, k: nat)
    requires k < 5
    ensures Bit(PendingMask(ie, iflag), k) <==> (iflag >> k) & 1 == 1 && (ie >> k) & 1 == 1
  {
    if k == 0 {
    } else if k == 1 {
    } else if k == 2 {
    } else if k == 3 {
    } else {
    }
  }

  /** Nothing is pending exactly when none of the five interrupt bits is set. */
  lemma NonePending(p: byte)
    requires p <= 0x1F
    ensures p == 0 <==> !Bit(p, 0) && !Bit(p, 1) && !Bit(p, 2) && !Bit(p, 3) && !Bit(p, 4)
  {
  }

  /** The first of the interrupt bits k..4 set in p, or 5 when there is none. */
  function FirstPendingFrom(p: byte, k: nat): (i: nat)
    requires k <= 5
    ensures k <= i <= 5
    ensures i < 5 ==> Bit(p, i)
    ensures forall j :: k <= j < i ==> !Bit(p, j)
    decreases 5 - k
  {
    if k == 5 then 5 else if Bit(p, k) then k else FirstPendingFrom(p, k + 1)
  }

  /** The search finds an interrupt exactly when one is pending. */
  lemma FirstPendingFound(p: byte)
    requires p <= 0x1F
    ensures FirstPendingFrom(p, 0) < 5 <==> p != 0
  {
    NonePending(p);
    var i := FirstPendingFrom(p, 0);
    if i == 5 {
      assert !Bit(p, 0) && !Bit(p, 1) && !Bit(p, 2) && !Bit(p, 3) && !Bit(p, 4);
    }
  }

  /** The interrupt with a given IF / IE bit. */
  function InterruptAt(n: nat): (i: Interrupt)
    requires n < 5
    ensures InterruptBit(i) == n
  {
    if n == 0 then IntVBlank else if n == 1 then IntLcdStat else if n == 2 then IntTimer
    else if n == 3 then IntSerial else IntJoypad
  }

  /** The interrupt handleInterrupts services: the lowest-numbered one both requested and
   *  enabled, which is the highest priority. */
  function ServicedInterrupt(ie: byte, iflag: byte): (i: Interrupt)
    requires PendingMask(ie, iflag) != 0
    ensures Bit(PendingMask(ie, iflag), InterruptBit(i))
    ensures forall j :: 0 <= j < InterruptBit(i) ==> !Bit(PendingMask(ie, iflag), j)
  {
    FirstPendingFound(PendingMask(ie, iflag));
    InterruptAt(FirstPendingFrom(PendingMask(ie, iflag), 0))
  }

  /** The handler address of an interrupt: 0x40 + 8 * its bit. */
  function InterruptVector(i: Interrupt): (v: word)
    ensures WordNat(v) == 0x40 + 8 * InterruptBit(i)
  {
    match i
    case IntVBlank => 0x40
    case IntLcdStat => 0x48
    case IntTimer => 0x50
    case IntSerial => 0x58
    case IntJoypad => 0x60
  }

  /** The priority loop of handleInterrupts: bits 0 to 4 in turn, stopping at the first one
   *  whose request and enable bits are both set; 5 when the loop runs out. */
  method HighestPriority(requested: byte, enabled: byte) returns (i: nat)
    ensures i == FirstPendingFrom(PendingMask(enabled, requested), 0)
  {
    ghost var p := PendingMask(enabled, requested);
    i := 0;
    while i < 5
      invariant i <= 5
      invariant FirstPendingFrom(p, i) == FirstPendingFrom(p, 0)
    {
      var requestBit := (requested >> i) & 1;
      var enabledBit := (enabled >> i) & 1;
      PendingBit(enabled, requested, i);
      if requestBit == 1 && enabledBit == 1 {
        return;
      }
      i := i + 1;
    }
  }

  /** dispatchInterrupt: IME cleared, the interrupt's IF bit cleared, two idle M-cycles, then a
   *  call to its vector. On stack memory the interrupted PC is on top of the stack and the
   *  rest of I/O is as it was. */
  method DispatchInterrupt(gb: GB, i: Interrupt) returns (ghost top: word)
    requires gb.Valid()
    modifies gb.GPR, gb.IO, gb.wram, gb.vram, gb.hram, gb.OAM, gb.bgColorRAM, gb.spriteColorRAM, GbMbc.Repr(gb.mbc)
    modifies gb`IE, gb`lastDIVSync, gb`lastTIMASync, gb`joypadSelectedMode, gb`selectedWRAMBank,
             gb`selectedVRAMBank, gb`currentBackgroundCRAMIndex, gb`currentSpriteCRAMIndex
    modifies gb`ppuMode, gb`cyclesSinceLastMode, gb`lockVRAM, gb`lockOAM, gb`lockPalettes, gb`ppuEnabled,
             gb`skipFrame, gb`cyclesSinceLastFrame
    modifies gb`scheduled_dmaSource, gb`scheduled_dmaTimer, gb`scheduleDMA
    modifies gb`clock, gb`mCyclesSinceDMA, gb`dmaSource, gb`doingDMA, gb`PC, gb`IME
    ensures gb.Valid() && gb.clock == old(gb.clock) + 20
    ensures !gb.IME && gb.PC == InterruptVector(i)
    ensures top == Reg16Of(old(gb.GPR[..]), SP) - 2 && gb.GPR[..] == WithReg16(old(gb.GPR[..]), SP, top)
    ensures StackSlot(top) ==> StackWord(gb, top) == old(gb.PC) &&
                               gb.IO[..] == old(gb.IO[..])[R_IF := old(gb.IO[R_IF]) & !InterruptMask(i)]
  {
    Acknowledge(gb, i);
    top := Call(gb, InterruptVector(i));
  }

  /** dispatchInterrupt before the call: IME cleared, the interrupt's IF bit cleared, two idle
   *  M-cycles. */
  method Acknowledge(gb: GB, i: Interrupt)
    requires gb.Valid()
    modifies gb.IO, gb`IME
    modifies gb`clock, gb.OAM, gb`mCyclesSinceDMA, gb`dmaSource, gb`doingDMA, gb`scheduleDMA, gb`scheduled_dmaTimer
    ensures gb.Valid() && !gb.IME && gb.clock == old(gb.clock) + 8
    ensures gb.IO[..] == old(gb.IO[..])[R_IF := old(gb.IO[R_IF]) & !InterruptMask(i)]
  {
    gb.IME := false;
    gb.IO[R_IF] := gb.IO[R_IF] & !InterruptMask(i);
    Idle8(gb);
  }

  /** Two idle M-cycles. */
  method Idle8(gb: GB)
    requires gb.Valid()
    modifies gb`clock, gb.OAM, gb`mCyclesSinceDMA, gb`dmaSource, gb`doingDMA, gb`scheduleDMA, gb`scheduled_dmaTimer
    ensures gb.Valid() && gb.clock == old(gb.clock) + 8
  {
    GbDma.CyclesSync4Valid(gb);
    GbDma.CyclesSync4Valid(gb);
  }

  /** Halt mode ends. */
  method ExitHalt(gb: GB)
    requires gb.Valid()
    modifies gb`haltMode
    ensures gb.Valid() && !gb.haltMode
  {
    gb.haltMode := false;
  }

  /** handleInterrupts with IME set and an interrupt pending: halt mode ends and the pending
   *  interrupt of highest priority is dispatched. (haltMode is cleared after the dispatch
   *  rather than before it; nothing in the dispatch reads it.) */
  method ServiceInterrupt(gb: GB) returns (ghost top: word)
    requires gb.Valid() && PendingMask(gb.IE, gb.IO[R_IF]) != 0
    modifies gb.GPR, gb.IO, gb.wram, gb.vram, gb.hram, gb.OAM, gb.bgColorRAM, gb.spriteColorRAM, GbMbc.Repr(gb.mbc)
    modifies gb`IE, gb`lastDIVSync, gb`lastTIMASync, gb`joypadSelectedMode, gb`selectedWRAMBank,
             gb`selectedVRAMBank, gb`currentBackgroundCRAMIndex, gb`currentSpriteCRAMIndex
    modifies gb`ppuMode, gb`cyclesSinceLastMode, gb`lockVRAM, gb`lockOAM, gb`lockPalettes, gb`ppuEnabled,
             gb`skipFrame, gb`cyclesSinceLastFrame
    modifies gb`scheduled_dmaSource, gb`scheduled_dmaTimer, gb`scheduleDMA
    modifies gb`clock, gb`mCyclesSinceDMA, gb`dmaSource, gb`doingDMA, gb`PC, gb`IME, gb`haltMode
    ensures gb.Valid() && gb.clock == old(gb.clock) + 20 && !gb.haltMode && !gb.IME
    ensures gb.PC == InterruptVector(ServicedInterrupt(old(gb.IE), old(gb.IO[R_IF])))
    ensures top == Reg16Of(old(gb.GPR[..]), SP) - 2 && gb.GPR[..] == WithReg16(old(gb.GPR[..]), SP, top)
    ensures StackSlot(top) ==>
              StackWord(gb, top) == old(gb.PC) &&
              gb.IO[..] == old(gb.IO[..])[R_IF := old(gb.IO[R_IF]) & !InterruptMask(ServicedInterrupt(old(gb.IE), old(gb.IO[R_IF])))]
  {
    top := DispatchPending(gb);
    ExitHalt(gb);
  }

  /** The priority loop of handleInterrupts and the dispatch of the interrupt it finds. */
  method DispatchPending(gb: GB) returns (ghost top: word)
    requires gb.Valid() && PendingMask(gb.IE, gb.IO[R_IF]) != 0
    modifies gb.GPR, gb.IO, gb.wram, gb.vram, gb.hram, gb.OAM, gb.bgColorRAM, gb.spriteColorRAM, GbMbc.Repr(gb.mbc)
    modifies gb`IE, gb`lastDIVSync, gb`lastTIMASync, gb`joypadSelectedMode, gb`selectedWRAMBank,
             gb`selectedVRAMBank, gb`currentBackgroundCRAMIndex, gb`currentSpriteCRAMIndex
    modifies gb`ppuMode, gb`cyclesSinceLastMode, gb`lockVRAM, gb`lockOAM, gb`lockPalettes, gb`ppuEnabled,
             gb`skipFrame, gb`cyclesSinceLastFrame
    modifies gb`scheduled_dmaSource, gb`scheduled_dmaTimer, gb`scheduleDMA
    modifies gb`clock, gb`mCyclesSinceDMA, gb`dmaSource, gb`doingDMA, gb`PC, gb`IME
    ensures gb.Valid() && gb.clock == old(gb.clock) + 20 && !gb.IME
    ensures gb.PC == InterruptVector(ServicedInterrupt(old(gb.IE), old(gb.IO[R_IF])))
    ensures top == Reg16Of(old(gb.GPR[..]), SP) - 2 && gb.GPR[..] == WithReg16(old(gb.GPR[..]), SP, top)
    ensures StackSlot(top) ==>
              StackWord(gb, top) == old(gb.PC) &&
              gb.IO[..] == old(gb.IO[..])[R_IF := old(gb.IO[R_IF]) & !InterruptMask(ServicedInterrupt(old(gb.IE), old(gb.IO[R_IF])))]
  {
    var requested := gb.IO[R_IF];
    var enabled := gb.IE;
    var n := HighestPriority(requested, enabled);
    FirstPendingFound(PendingMask(enabled, requested));
    top := DispatchInterrupt(gb, InterruptAt(n));
  }

  /** handleInterrupts. With nothing both requested and enabled nothing changes. Otherwise
   *  halt mode ends, and only when IME is set is the highest-priority interrupt serviced:
   *  IME and its IF bit cleared, PC pushed, PC := its vector. */
  method HandleInterrupts(gb: GB) returns (ghost top: word)
    requires gb.Valid()
    modifies gb.GPR, gb.IO, gb.wram, gb.vram, gb.hram, gb.OAM, gb.bgColorRAM, gb.spriteColorRAM, GbMbc.Repr(gb.mbc)
    modifies gb`IE, gb`lastDIVSync, gb`lastTIMASync, gb`joypadSelectedMode, gb`selectedWRAMBank,
             gb`selectedVRAMBank, gb`currentBackgroundCRAMIndex, gb`currentSpriteCRAMIndex
    modifies gb`ppuMode, gb`cyclesSinceLastMode, gb`lockVRAM, gb`lockOAM, gb`lockPalettes, gb`ppuEnabled,
             gb`skipFrame, gb`cyclesSinceLastFrame
    modifies gb`scheduled_dmaSource, gb`scheduled_dmaTimer, gb`scheduleDMA
    modifies gb`clock, gb`mCyclesSinceDMA, gb`dmaSource, gb`doingDMA, gb`PC, gb`IME, gb`haltMode
    ensures gb.Valid()
    ensures gb.haltMode == (old(gb.haltMode) && PendingMask(old(gb.IE), old(gb.IO[R_IF])) == 0)
    ensures !old(gb.IME) || PendingMask(old(gb.IE), old(gb.IO[R_IF])) == 0 ==>
              gb.PC == old(gb.PC) && gb.IME == old(gb.IME) && gb.GPR[..] == old(gb.GPR[..]) &&
              gb.clock == old(gb.clock) && unchanged(gb.IO)
    ensures old(gb.IME) && PendingMask(old(gb.IE), old(gb.IO[R_IF])) != 0 ==>
              !gb.IME && gb.clock == old(gb.clock) + 20 &&
              gb.PC == InterruptVector(ServicedInterrupt(old(gb.IE), old(gb.IO[R_IF]))) &&
              top == Reg16Of(old(gb.GPR[..]), SP) - 2 && gb.GPR[..] == WithReg16(old(gb.GPR[..]), SP, top)
    ensures old(gb.IME) && PendingMask(old(gb.IE), old(gb.IO[R_IF])) != 0 && StackSlot(top) ==>
              StackWord(gb, top) == old(gb.PC) &&
              gb.IO[..] == old(gb.IO[..])[R_IF := old(gb.IO[R_IF]) & !InterruptMask(ServicedInterrupt(old(gb.IE), old(gb.IO[R_IF])))]
  {
    top := 0;
    var requested := gb.IO[R_IF];
    var enabled := gb.IE;
    if gb.IME {
      if PendingMask(enabled, requested) != 0 {
        top := ServiceInterrupt(gb);
      }
    } else {
      if PendingMask(enabled, requested) != 0 {
        ExitHalt(gb);
      }
    }
  }

  // ---------------------------------------------------------------------------------------
  // HALT and STOP

  /** What HALT does, by IME and whether an interrupt is pending. */
  datatype HaltEffect = EnterHalt | NoEffect | ScheduleHaltBug

  /** halt: with nothing pending the CPU sleeps; with something pending it carries on, and
   *  when IME is clear that is the halt bug. */
  function HaltOutcome(ime: bool, pending: byte): (e: HaltEffect)
    ensures e == EnterHalt <==> pending == 0
    ensures e == ScheduleHaltBug <==> !ime && pending != 0
    ensures e == NoEffect <==> ime && pending != 0
  {
    if ime then (if pending == 0 then EnterHalt else NoEffect)
    else if pending == 0 then EnterHalt else ScheduleHaltBug
  }

  /** halt: sets haltMode or scheduleHaltBug as HaltOutcome says (neither flag is cleared). */
  method Halt(gb: GB)
    requires gb.Valid()
    modifies gb`haltMode, gb`scheduleHaltBug
    ensures gb.Valid()
    ensures gb.haltMode ==
              (old(gb.haltMode) || HaltOutcome(old(gb.IME), PendingMask(old(gb.IE), old(gb.IO[R_IF]))) == EnterHalt)
    ensures gb.scheduleHaltBug ==
              (old(gb.scheduleHaltBug) || HaltOutcome(old(gb.IME), PendingMask(old(gb.IE), old(gb.IO[R_IF]))) == ScheduleHaltBug)
  {
    var e := HaltOutcome(gb.IME, PendingMask(gb.IE, gb.IO[R_IF]));
    if e == EnterHalt {
      EnterHaltMode(gb);
    } else if e == ScheduleHaltBug {
      SetHaltBug(gb);
    }
  }

  /** haltMode := true under the whole state invariant. */
  method EnterHaltMode(gb: GB)
    requires gb.Valid()
    modifies gb`haltMode
    ensures gb.Valid() && gb.haltMode
  {
    gb.haltMode := true;
  }

  /** scheduleHaltBug := true under the whole state invariant. */
  method SetHaltBug(gb: GB)
    requires gb.Valid()
    modifies gb`scheduleHaltBug
    ensures gb.Valid() && gb.scheduleHaltBug
  {
    gb.scheduleHaltBug := true;
  }

  /** syncTimer under the whole state invariant. */
  method SyncTimerValid(gb: GB)
    requires gb.Valid()
    modifies gb.IO, gb`lastDIVSync, gb`lastTIMASync
    ensures gb.Valid()
    ensures gb.IO[..] == GbTimer.SyncedIO(old(gb.IO[..]), gb.clock, old(gb.lastDIVSync), old(gb.lastTIMASync))
  {
    GbTimer.SyncTimer(gb);
  }

  /** The 2050 M-cycles of a CGB speed switch, the timer synced after each. */
  method SpeedSwitchIdle(gb: GB)
    requires gb.Valid()
    modifies gb.IO, gb`lastDIVSync, gb`lastTIMASync
    modifies gb`clock, gb.OAM, gb`mCyclesSinceDMA, gb`dmaSource, gb`doingDMA, gb`scheduleDMA, gb`scheduled_dmaTimer
    ensures gb.Valid() && gb.clock == old(gb.clock) + 4 * 2050
  {
    var i := 0;
    while i < 2050
      invariant 0 <= i <= 2050
      invariant gb.Valid() && gb.clock == old(gb.clock) + 4 * i
    {
      GbDma.CyclesSync4Valid(gb);
      SyncTimerValid(gb);
      i := i + 1;
    }
  }

  /** KEY1 after a speed switch: the armed bit 0 cleared and bit 7 the new speed. */
  function Key1After(key1: byte, doubleSpeed: bool): (k: byte)
    ensures k & 0x01 == 0 && (k & 0x80 == 0x80 <==> doubleSpeed)
    ensures k & 0x7E == key1 & 0x7E
  {
    (key1 & 0x7E) | (BoolByte(doubleSpeed) << 7)
  }

  /** stop: the second opcode byte is fetched and dropped and DIV is reset. On CGB a speed
   *  switch follows: 2050 M-cycles with the timer running, then the speed flips and KEY1
   *  shows it. */
  method Stop(gb: GB)
    requires gb.Valid()
    modifies gb.IO, gb`lastDIVSync, gb`lastTIMASync, gb`PC
    modifies gb`clock, gb.OAM, gb`mCyclesSinceDMA, gb`dmaSource, gb`doingDMA, gb`scheduleDMA, gb`scheduled_dmaTimer
    modifies gb`doingSpeedSwitch, gb`isDoubleSpeedMode
    ensures gb.Valid() && gb.PC == old(gb.PC) + 1
    ensures gb.emuMode != EmuCgb ==>
              gb.clock == old(gb.clock) + 4 && gb.IO[R_DIV] == 0 &&
              gb.isDoubleSpeedMode == old(gb.isDoubleSpeedMode) && gb.doingSpeedSwitch == old(gb.doingSpeedSwitch)
    ensures gb.emuMode == EmuCgb ==>
              gb.clock == old(gb.clock) + 4 + 4 * 2050 && gb.isDoubleSpeedMode == !old(gb.isDoubleSpeedMode) &&
              !gb.doingSpeedSwitch && gb.IO[R_KEY1] & 0x01 == 0 && (gb.IO[R_KEY1] & 0x80 == 0x80 <==> gb.isDoubleSpeedMode)
  {
    StopFetch(gb);
    if gb.emuMode != EmuCgb {
      return;
    }
    SpeedSwitch(gb);
  }

  /** The part of stop every model runs: the dropped operand fetch and the DIV reset. */
  method StopFetch(gb: GB)
    requires gb.Valid()
    modifies gb.IO, gb`lastDIVSync, gb`lastTIMASync, gb`PC
    modifies gb`clock, gb.OAM, gb`mCyclesSinceDMA, gb`dmaSource, gb`doingDMA, gb`scheduleDMA, gb`scheduled_dmaTimer
    ensures gb.Valid() && gb.PC == old(gb.PC) + 1 && gb.clock == old(gb.clock) + 4 && gb.IO[R_DIV] == 0
  {
    var _ := ReadByte4C(gb);
    SetIOValid(gb, R_DIV, 0);
  }

  /** A plain store into IO[] under the whole state invariant. */
  method SetIOValid(gb: GB, reg: nat, v: byte)
    requires gb.Valid() && reg < 0x80
    modifies gb.IO
    ensures gb.Valid() && gb.IO[..] == old(gb.IO[..])[reg := v]
  {
    gb.IO[reg] := v;
  }

  /** The CGB speed switch of stop. */
  method SpeedSwitch(gb: GB)
    requires gb.Valid()
    modifies gb.IO, gb`lastDIVSync, gb`lastTIMASync
    modifies gb`clock, gb.OAM, gb`mCyclesSinceDMA, gb`dmaSource, gb`doingDMA, gb`scheduleDMA, gb`scheduled_dmaTimer
    modifies gb`doingSpeedSwitch, gb`isDoubleSpeedMode
    ensures gb.Valid() && gb.clock == old(gb.clock) + 4 * 2050
    ensures gb.isDoubleSpeedMode == !old(gb.isDoubleSpeedMode) && !gb.doingSpeedSwitch
    ensures gb.IO[R_KEY1] & 0x01 == 0 && (gb.IO[R_KEY1] & 0x80 == 0x80 <==> gb.isDoubleSpeedMode)
  {
    BeginSpeedSwitch(gb);
    SpeedSwitchIdle(gb);
    EndSpeedSwitch(gb);
  }

  /** doingSpeedSwitch := true. */
  method BeginSpeedSwitch(gb: GB)
    requires gb.Valid()
    modifies gb`doingSpeedSwitch
    ensures gb.Valid() && gb.doingSpeedSwitch
  {
    gb.doingSpeedSwitch := true;
  }

  /** The end of a speed switch: the speed flips and KEY1 reports it. */
  method EndSpeedSwitch(gb: GB)
    requires gb.Valid()
    modifies gb.IO, gb`doingSpeedSwitch, gb`isDoubleSpeedMode
    ensures gb.Valid() && gb.isDoubleSpeedMode == !old(gb.isDoubleSpeedMode) && !gb.doingSpeedSwitch
    ensures gb.IO[..] == old(gb.IO[..])[R_KEY1 := Key1After(old(gb.IO[R_KEY1]), gb.isDoubleSpeedMode)]
  {
    gb.doingSpeedSwitch := false;
    gb.isDoubleSpeedMode := !gb.isDoubleSpeedMode;
    gb.IO[R_KEY1] := Key1After(gb.IO[R_KEY1], gb.isDoubleSpeedMode);
  }
}
