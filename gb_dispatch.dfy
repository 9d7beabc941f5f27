// dispatch of gb/cpu.c: the deferred EI, the halted step, the opcode fetch (with the halt
// bug's repeated byte), the instruction, and the timer sync and interrupt check that close
// every dispatch except STOP's.

module GbDispatch {
  import opened Bits
  import opened GbState
  import opened GbBus
  import opened GbDecode
  import GbCpu
  import GbDma
  import GbExec
  import GbMbc
  import GbTimer

  /** The start of dispatch: an EI scheduled by the previous instruction sets IME now. The
   *  bytes at PC and at a, the byte the fetch after the opcode will read, are left as they
   *  were. */
  method ConsumeEnable(gb: GB, ghost a: word)
    requires gb.Valid()
    modifies gb`IME, gb`scheduleInterruptEnable
    ensures gb.Valid() && !gb.scheduleInterruptEnable
    ensures gb.IME == (old(gb.IME) || old(gb.scheduleInterruptEnable))
    ensures Peek(gb, gb.PC) == old(Peek(gb, gb.PC)) && Peek(gb, a) == old(Peek(gb, a))
  {
    label pre:
    if gb.scheduleInterruptEnable {
      EnableNow(gb);
    }
    assert PeekFrame@pre(gb, gb.PC);
    assert PeekFrame@pre(gb, a);
  }

  method EnableNow(gb: GB)
    requires gb.Valid()
    modifies gb`IME, gb`scheduleInterruptEnable
    ensures gb.Valid() && !gb.scheduleInterruptEnable && gb.IME
  {
    gb.scheduleInterruptEnable := false;
    gb.IME := true;
  }

  /** Where the opcode fetch leaves PC, and so where the byte after the opcode is read from:
   *  the next byte, or under the halt bug the opcode's own byte again. */
  function NextFetch(pc: word, haltBug: bool): word
  {
    if haltBug then pc else pc + 1
  }

  /** The opcode fetch. Normally readByte_4C. Under the halt bug the byte is read without
   *  its cycle, PC is moved back onto it, and the M-cycle follows; scheduleHaltBug stays
   *  set, so every later fetch repeats too. */
  method FetchOpcode(gb: GB) returns (op: byte)
    requires gb.Valid()
    modifies gb.IO, gb`lastDIVSync, gb`lastTIMASync, gb`PC
    modifies gb`clock, gb.OAM, gb`mCyclesSinceDMA, gb`dmaSource, gb`doingDMA, gb`scheduleDMA, gb`scheduled_dmaTimer
    ensures gb.Valid() && gb.clock == old(gb.clock) + 4
    ensures gb.PC == NextFetch(old(gb.PC), gb.scheduleHaltBug)
    ensures !TimerAddress(old(gb.PC)) ==> op == old(Peek(gb, gb.PC))
    ensures var a := gb.PC; !TimerAddress(old(gb.PC)) && GbCpu.PlainRead(a) ==> Peek(gb, a) == old(Peek(gb, a))
  {
    if gb.scheduleHaltBug {
      op := HaltBugFetch(gb);
    } else {
      op := GbCpu.FetchKeeping(gb, gb.PC + 1);
    }
  }

  method HaltBugFetch(gb: GB) returns (op: byte)
    requires gb.Valid()
    modifies gb.IO, gb`lastDIVSync, gb`lastTIMASync, gb`PC
    modifies gb`clock, gb.OAM, gb`mCyclesSinceDMA, gb`dmaSource, gb`doingDMA, gb`scheduleDMA, gb`scheduled_dmaTimer
    ensures gb.Valid() && gb.clock == old(gb.clock) + 4 && gb.PC == old(gb.PC)
    ensures !TimerAddress(old(gb.PC)) ==> op == old(Peek(gb, gb.PC))
    ensures !TimerAddress(old(gb.PC)) && GbCpu.PlainRead(gb.PC) ==> Peek(gb, gb.PC) == old(Peek(gb, gb.PC))
  {
    op := HaltBugRead(gb);
    SyncKeeping(gb, gb.PC);
  }

  /** The read of the halt-bug fetch: readByte, then PC moved back onto the byte. */
  method HaltBugRead(gb: GB) returns (op: byte)
    requires gb.Valid()
    modifies gb.IO, gb`lastDIVSync, gb`lastTIMASync, gb`PC
    ensures gb.Valid() && gb.PC == old(gb.PC)
    ensures !TimerAddress(old(gb.PC)) ==> op == old(Peek(gb, gb.PC))
    ensures !TimerAddress(old(gb.PC)) && GbCpu.PlainRead(gb.PC) ==> Peek(gb, gb.PC) == old(Peek(gb, gb.PC))
  {
    label pre:
    var pc := gb.PC;
    op := GbCpu.ReadByte(gb);
    GbCpu.SetPCValid(gb, pc);
    assert !TimerAddress(pc) ==> GbCpu.PeekKept@pre(gb, pc);
  }

  /** The M-cycle of the halt-bug fetch, which leaves the byte at a plain address a as it was. */
  method SyncKeeping(gb: GB, ghost a: word)
    requires gb.Valid()
    modifies gb`clock, gb.OAM, gb`mCyclesSinceDMA, gb`dmaSource, gb`doingDMA, gb`scheduleDMA, gb`scheduled_dmaTimer
    ensures gb.Valid() && gb.clock == old(gb.clock) + 4
    ensures GbCpu.PlainRead(a) ==> Peek(gb, a) == old(Peek(gb, a))
  {
    label pre:
    GbDma.CyclesSync4Valid(gb);
    assert GbCpu.PeekKept@pre(gb, a);
  }

  /** The addresses n fetches read in a run of one-byte instructions, as FetchOpcode does
   *  them: under the halt bug PC stays put, and nothing clears scheduleHaltBug. */
  function FetchesAsWritten(pc: word, haltBug: bool, n: nat): (s: seq<word>)
    ensures |s| == n && (n > 0 ==> s[0] == pc)
    decreases n
  {
    if n == 0 then [] else [pc] + FetchesAsWritten(if haltBug then pc else pc + 1, haltBug, n - 1)
  }

  /** The same fetches with the halt bug repeating one byte only: the fetch that repeats the
   *  byte also clears the schedule. */
  function FetchesIntended(pc: word, haltBug: bool, n: nat): (s: seq<word>)
    ensures |s| == n && (n > 0 ==> s[0] == pc)
    decreases n
  {
    if n == 0 then [] else [pc] + FetchesIntended(if haltBug then pc else pc + 1, false, n - 1)
  }

  /** As written, once the halt bug is scheduled every later fetch reads the same byte. */
  lemma {:induction false} HaltBugRepeatsForever(pc: word, n: nat)
    ensures FetchesAsWritten(pc, true, n) == seq(n, _ => pc)
    decreases n
  {
    if n > 0 {
      HaltBugRepeatsForever(pc, n - 1);
    }
  }

  /** Without the halt bug the two fetch sequences are the same. */
  lemma {:induction false} FetchesAgreeWithoutHaltBug(pc: word, n: nat)
    ensures FetchesAsWritten(pc, false, n) == FetchesIntended(pc, false, n)
    decreases n
  {
    if n > 0 {
      FetchesAgreeWithoutHaltBug(pc + 1, n - 1);
    }
  }

  /** Corrected, the halt bug reads the byte after HALT twice and then fetching goes on as
   *  normal. */
  lemma HaltBugRepeatsOnce(pc: word, n: nat)
    ensures FetchesIntended(pc, true, n + 1) == [pc] + FetchesAsWritten(pc, false, n)
  {
    FetchesAgreeWithoutHaltBug(pc, n);
  }

  /** Three fetches after the halt bug is scheduled: as written [pc, pc, pc], corrected
   *  [pc, pc, pc + 1]. */
  lemma HaltBugCounterexample(pc: word)
    ensures FetchesAsWritten(pc, true, 3) == [pc, pc, pc]
    ensures FetchesIntended(pc, true, 3) == [pc, pc, pc + 1]
  {
    HaltBugRepeatsForever(pc, 3);
    HaltBugRepeatsOnce(pc, 2);
  }

  /** The end of dispatch: syncTimer, then handleInterrupts. pending is the interrupt set
   *  seen after the sync; an interrupt is serviced when IME is set and one is pending. */
  method SyncAndInterrupts(gb: GB) returns (ghost pending: byte, ghost serviced: bool)
    requires gb.Valid()
    modifies gb.GPR, gb.IO, gb.wram, gb.vram, gb.hram, gb.OAM, gb.bgColorRAM, gb.spriteColorRAM, GbMbc.Repr(gb.mbc)
    modifies gb`IE, gb`lastDIVSync, gb`lastTIMASync, gb`joypadSelectedMode, gb`selectedWRAMBank,
             gb`selectedVRAMBank, gb`currentBackgroundCRAMIndex, gb`currentSpriteCRAMIndex
    modifies gb`ppuMode, gb`cyclesSinceLastMode, gb`lockVRAM, gb`lockOAM, gb`lockPalettes, gb`ppuEnabled,
             gb`skipFrame, gb`cyclesSinceLastFrame
    modifies gb`scheduled_dmaSource, gb`scheduled_dmaTimer, gb`scheduleDMA
    modifies gb`clock, gb`mCyclesSinceDMA, gb`dmaSource, gb`doingDMA, gb`PC, gb`IME, gb`haltMode
    ensures gb.Valid()
    ensures serviced == (old(gb.IME) && pending != 0)
    ensures gb.haltMode == (old(gb.haltMode) && pending == 0)
    ensures gb.clock == old(gb.clock) + (if serviced then 20 else 0)
    ensures gb.IME == (old(gb.IME) && !serviced)
    ensures !serviced ==> gb.PC == old(gb.PC)
  {
    GbCpu.SyncTimerValid(gb);
    pending := GbCpu.PendingMask(gb.IE, gb.IO[R_IF]);
    serviced := gb.IME && pending != 0;
    var _ := GbCpu.HandleInterrupts(gb);
  }

  /** While halted, dispatch only lets an M-cycle pass, syncs the timer and checks for
   *  interrupts: the halt ends when an interrupt is pending after the sync, whether or not
   *  IME lets it be serviced. */
  method HaltedStep(gb: GB) returns (ghost pending: byte, ghost serviced: bool)
    requires gb.Valid() && gb.haltMode
    modifies gb.GPR, gb.IO, gb.wram, gb.vram, gb.hram, gb.OAM, gb.bgColorRAM, gb.spriteColorRAM, GbMbc.Repr(gb.mbc)
    modifies gb`IE, gb`lastDIVSync, gb`lastTIMASync, gb`joypadSelectedMode, gb`selectedWRAMBank,
             gb`selectedVRAMBank, gb`currentBackgroundCRAMIndex, gb`currentSpriteCRAMIndex
    modifies gb`ppuMode, gb`cyclesSinceLastMode, gb`lockVRAM, gb`lockOAM, gb`lockPalettes, gb`ppuEnabled,
             gb`skipFrame, gb`cyclesSinceLastFrame
    modifies gb`scheduled_dmaSource, gb`scheduled_dmaTimer, gb`scheduleDMA
    modifies gb`clock, gb`mCyclesSinceDMA, gb`dmaSource, gb`doingDMA, gb`PC, gb`IME, gb`haltMode
    ensures gb.Valid()
    ensures gb.haltMode <==> pending == 0
    ensures serviced == (old(gb.IME) && pending != 0)
    ensures gb.clock == old(gb.clock) + 4 + (if serviced then 20 else 0)
    ensures !serviced ==> gb.PC == old(gb.PC)
  {
    GbDma.CyclesSync4Valid(gb);
    pending, serviced := SyncAndInterrupts(gb);
  }

  /** Fetch, decode and execute one instruction. */
  method FetchAndExecute(gb: GB) returns (op: byte, i: Instr, ghost c: CbInstr, ghost cycles: nat)
    requires gb.Valid()
    modifies gb.GPR, gb.IO, gb.wram, gb.vram, gb.hram, gb.OAM, gb.bgColorRAM, gb.spriteColorRAM, GbMbc.Repr(gb.mbc)
    modifies gb`IE, gb`lastDIVSync, gb`lastTIMASync, gb`joypadSelectedMode, gb`selectedWRAMBank,
             gb`selectedVRAMBank, gb`currentBackgroundCRAMIndex, gb`currentSpriteCRAMIndex
    modifies gb`ppuMode, gb`cyclesSinceLastMode, gb`lockVRAM, gb`lockOAM, gb`lockPalettes, gb`ppuEnabled,
             gb`skipFrame, gb`cyclesSinceLastFrame
    modifies gb`scheduled_dmaSource, gb`scheduled_dmaTimer, gb`scheduleDMA
    modifies gb`clock, gb`mCyclesSinceDMA, gb`dmaSource, gb`doingDMA, gb`PC
    modifies gb`IME, gb`haltMode, gb`scheduleHaltBug, gb`scheduleInterruptEnable, gb`doingSpeedSwitch, gb`isDoubleSpeedMode
    ensures gb.Valid()
    ensures i == Decode(op) && (!TimerAddress(old(gb.PC)) ==> op == old(Peek(gb, gb.PC)))
    ensures cycles == 4 + GbExec.Cycles(i, old(gb.GPR[1]), c, gb.emuMode == EmuCgb)
    ensures i == PrefixCB && !TimerAddress(old(gb.PC)) && GbCpu.PlainRead(NextFetch(old(gb.PC), old(gb.scheduleHaltBug))) ==>
              c == DecodeCB(old(Peek(gb, NextFetch(gb.PC, gb.scheduleHaltBug))))
    ensures gb.clock == old(gb.clock) + cycles
    ensures old(gb.scheduleHaltBug) ==> gb.scheduleHaltBug
    ensures gb.IME ==> old(gb.IME) && i != DisableInterrupts
  {
    op := FetchOpcode(gb);
    i := Decode(op);
    DecodeWellFormed(op);
    var cb := GbExec.Execute(gb, i);
    c := cb;
    cycles := 4 + GbExec.Cycles(i, old(gb.GPR[1]), c, gb.emuMode == EmuCgb);
  }

  /** After the instruction: STOP returns from dispatch at once, anything else goes on to the
   *  timer sync and the interrupt check. */
  method Finish(gb: GB, i: Instr) returns (ghost serviced: bool)
    requires gb.Valid()
    modifies gb.GPR, gb.IO, gb.wram, gb.vram, gb.hram, gb.OAM, gb.bgColorRAM, gb.spriteColorRAM, GbMbc.Repr(gb.mbc)
    modifies gb`IE, gb`lastDIVSync, gb`lastTIMASync, gb`joypadSelectedMode, gb`selectedWRAMBank,
             gb`selectedVRAMBank, gb`currentBackgroundCRAMIndex, gb`currentSpriteCRAMIndex
    modifies gb`ppuMode, gb`cyclesSinceLastMode, gb`lockVRAM, gb`lockOAM, gb`lockPalettes, gb`ppuEnabled,
             gb`skipFrame, gb`cyclesSinceLastFrame
    modifies gb`scheduled_dmaSource, gb`scheduled_dmaTimer, gb`scheduleDMA
    modifies gb`clock, gb`mCyclesSinceDMA, gb`dmaSource, gb`doingDMA, gb`PC, gb`IME, gb`haltMode
    ensures gb.Valid()
    ensures i == Stop ==> !serviced && gb.PC == old(gb.PC)
    ensures serviced ==> old(gb.IME)
    ensures gb.clock == old(gb.clock) + (if serviced then 20 else 0)
    ensures gb.scheduleHaltBug == old(gb.scheduleHaltBug)
  {
    serviced := false;
    if i != Stop {
      ghost var pending;
      pending, serviced := SyncAndInterrupts(gb);
    }
  }

  /** A dispatch that is not halted: fetch, decode, execute; STOP returns at once, every other
   *  instruction is followed by the timer sync and the interrupt check. */
  method RunInstruction(gb: GB) returns (op: byte, i: Instr, ghost c: CbInstr, ghost cycles: nat, ghost serviced: bool)
    requires gb.Valid()
    modifies gb.GPR, gb.IO, gb.wram, gb.vram, gb.hram, gb.OAM, gb.bgColorRAM, gb.spriteColorRAM, GbMbc.Repr(gb.mbc)
    modifies gb`IE, gb`lastDIVSync, gb`lastTIMASync, gb`joypadSelectedMode, gb`selectedWRAMBank,
             gb`selectedVRAMBank, gb`currentBackgroundCRAMIndex, gb`currentSpriteCRAMIndex
    modifies gb`ppuMode, gb`cyclesSinceLastMode, gb`lockVRAM, gb`lockOAM, gb`lockPalettes, gb`ppuEnabled,
             gb`skipFrame, gb`cyclesSinceLastFrame
    modifies gb`scheduled_dmaSource, gb`scheduled_dmaTimer, gb`scheduleDMA
    modifies gb`clock, gb`mCyclesSinceDMA, gb`dmaSource, gb`doingDMA, gb`PC
    modifies gb`IME, gb`haltMode, gb`scheduleHaltBug, gb`scheduleInterruptEnable, gb`doingSpeedSwitch, gb`isDoubleSpeedMode
    ensures gb.Valid()
    ensures i == Decode(op) && (!TimerAddress(old(gb.PC)) ==> op == old(Peek(gb, gb.PC)))
    ensures i == Stop ==> !serviced
    ensures serviced ==> old(gb.IME) && i != DisableInterrupts
    ensures cycles - 4 == GbExec.Cycles(i, old(gb.GPR[1]), c, gb.emuMode == EmuCgb)
    ensures i == PrefixCB && !TimerAddress(old(gb.PC)) && GbCpu.PlainRead(NextFetch(old(gb.PC), old(gb.scheduleHaltBug))) ==>
              c == DecodeCB(old(Peek(gb, NextFetch(gb.PC, gb.scheduleHaltBug))))
    ensures gb.clock == old(gb.clock) + cycles + (if serviced then 20 else 0)
    ensures old(gb.scheduleHaltBug) ==> gb.scheduleHaltBug
  {
    op, i, c, cycles := FetchAndExecute(gb);
    serviced := Finish(gb, i);
  }

  /** The body of dispatch after the deferred enable: the halted step or one instruction. */
  method Step(gb: GB) returns (halted: bool, ghost serviced: bool, ghost op: byte, ghost i: Instr, ghost c: CbInstr)
    requires gb.Valid()
    modifies gb.GPR, gb.IO, gb.wram, gb.vram, gb.hram, gb.OAM, gb.bgColorRAM, gb.spriteColorRAM, GbMbc.Repr(gb.mbc)
    modifies gb`IE, gb`lastDIVSync, gb`lastTIMASync, gb`joypadSelectedMode, gb`selectedWRAMBank,
             gb`selectedVRAMBank, gb`currentBackgroundCRAMIndex, gb`currentSpriteCRAMIndex
    modifies gb`ppuMode, gb`cyclesSinceLastMode, gb`lockVRAM, gb`lockOAM, gb`lockPalettes, gb`ppuEnabled,
             gb`skipFrame, gb`cyclesSinceLastFrame
    modifies gb`scheduled_dmaSource, gb`scheduled_dmaTimer, gb`scheduleDMA
    modifies gb`clock, gb`mCyclesSinceDMA, gb`dmaSource, gb`doingDMA, gb`PC
    modifies gb`IME, gb`haltMode, gb`scheduleHaltBug, gb`scheduleInterruptEnable, gb`doingSpeedSwitch, gb`isDoubleSpeedMode
    ensures gb.Valid()
    ensures halted == old(gb.haltMode)
    ensures serviced ==> old(gb.IME)
    ensures halted ==> (gb.PC == old(gb.PC) || serviced) && gb.clock == old(gb.clock) + 4 + (if serviced then 20 else 0)
    ensures !halted ==> i == Decode(op) && (!TimerAddress(old(gb.PC)) ==> op == old(Peek(gb, gb.PC)))
    ensures !halted ==>
              gb.clock == old(gb.clock) + 4 + GbExec.Cycles(i, old(gb.GPR[1]), c, gb.emuMode == EmuCgb) + (if serviced then 20 else 0)
    ensures !halted && i == PrefixCB && !TimerAddress(old(gb.PC)) &&
            GbCpu.PlainRead(NextFetch(old(gb.PC), old(gb.scheduleHaltBug))) ==>
              c == DecodeCB(old(Peek(gb, NextFetch(gb.PC, gb.scheduleHaltBug))))
    ensures old(gb.scheduleHaltBug) ==> gb.scheduleHaltBug
  {
    halted := gb.haltMode;
    op, i, c := 0, Nop, Shift(ShRlc, OpB);
    if halted {
      ghost var pending;
      pending, serviced := HaltedStep(gb);
    } else {
      ghost var cycles;
      op, i, c, cycles, serviced := RunInstruction(gb);
    }
  }

  /** dispatch: one step of the CPU. An interrupt is serviced at its end only when IME was
   *  already set or an EI of the previous dispatch scheduled it: EI takes effect one
   *  instruction late. */
  method Dispatch(gb: GB) returns (halted: bool, ghost serviced: bool, ghost op: byte, ghost i: Instr, ghost c: CbInstr)
    requires gb.Valid()
    modifies gb.GPR, gb.IO, gb.wram, gb.vram, gb.hram, gb.OAM, gb.bgColorRAM, gb.spriteColorRAM, GbMbc.Repr(gb.mbc)
    modifies gb`IE, gb`lastDIVSync, gb`lastTIMASync, gb`joypadSelectedMode, gb`selectedWRAMBank,
             gb`selectedVRAMBank, gb`currentBackgroundCRAMIndex, gb`currentSpriteCRAMIndex
    modifies gb`ppuMode, gb`cyclesSinceLastMode, gb`lockVRAM, gb`lockOAM, gb`lockPalettes, gb`ppuEnabled,
             gb`skipFrame, gb`cyclesSinceLastFrame
    modifies gb`scheduled_dmaSource, gb`scheduled_dmaTimer, gb`scheduleDMA
    modifies gb`clock, gb`mCyclesSinceDMA, gb`dmaSource, gb`doingDMA, gb`PC
    modifies gb`IME, gb`haltMode, gb`scheduleHaltBug, gb`scheduleInterruptEnable, gb`doingSpeedSwitch, gb`isDoubleSpeedMode
    ensures gb.Valid()
    ensures halted == old(gb.haltMode)
    ensures serviced ==> old(gb.IME) || old(gb.scheduleInterruptEnable)
    ensures halted ==> (gb.PC == old(gb.PC) || serviced) && gb.clock == old(gb.clock) + 4 + (if serviced then 20 else 0)
    ensures !halted ==> i == Decode(op) && (!TimerAddress(old(gb.PC)) ==> op == old(Peek(gb, gb.PC)))
    ensures !halted ==>
              gb.clock == old(gb.clock) + 4 + GbExec.Cycles(i, old(gb.GPR[1]), c, gb.emuMode == EmuCgb) + (if serviced then 20 else 0)
    ensures !halted && i == PrefixCB && !TimerAddress(old(gb.PC)) &&
            GbCpu.PlainRead(NextFetch(old(gb.PC), old(gb.scheduleHaltBug))) ==>
              c == DecodeCB(old(Peek(gb, NextFetch(gb.PC, gb.scheduleHaltBug))))
    ensures old(gb.scheduleHaltBug) ==> gb.scheduleHaltBug
  {
    ConsumeEnable(gb, NextFetch(gb.PC, gb.scheduleHaltBug));
    halted, serviced, op, i, c := Step(gb);
  }
}
