// The instruction layer of gb/cpu.c: what each case of dispatch and prefixCB does to the
// registers, the bus and the clock (the switch of dispatch; the rest of dispatch is GbDispatch).
// Register-only instructions are a pure step on the register file (RegisterStep); the
// forms that touch memory read and write through the timed bus helpers of GbCpu.

module GbExec {
  import opened Bits
  import opened GbState
  import opened GbBus
  import opened GbDecode
  import GbAlu
  import GbCpu
  import GbDma
  import GbMbc

  // ---------------------------------------------------------------------------------------
  // Results of the arithmetic, shift and bit helpers

  /** The byte a register operand holds. */
  function Reg(g: seq<byte>, o: Operand): byte
    requires |g| == 10 && o != OpHL
  {
    g[RegIndex(OperandReg(o))]
  }

  /** The helper an ALU opcode calls, applied to A, the operand and F. compareR8 stores
   *  nothing: its value is A itself. */
  function AluResult(a: AluOp, x: byte, y: byte, F: byte): (r: GbAlu.Out)
    ensures a == AluCp ==> r == GbAlu.Out(x, GbAlu.Sub8(x, y, F).f)
  {
    match a
    case AluAdd => GbAlu.Add8(x, y, F)
    case AluAdc => GbAlu.Adc8(x, y, F)
    case AluSub => GbAlu.Sub8(x, y, F)
    case AluSbc => GbAlu.Sbc8(x, y, F)
    case AluAnd => GbAlu.And8(x, y, F)
    case AluXor => GbAlu.Xor8(x, y, F)
    case AluOr => GbAlu.Or8(x, y, F)
    case AluCp => GbAlu.Out(x, GbAlu.Cp8(x, y, F))
  }

  /** The rotate and shift helpers; setZFlag is false only for RLCA, RRCA, RLA and RRA. */
  function ShiftResult(s: ShiftOp, v: byte, F: byte, setZFlag: bool): GbAlu.Out
  {
    match s
    case ShRlc => GbAlu.Rlc(v, F, setZFlag)
    case ShRrc => GbAlu.Rrc(v, F, setZFlag)
    case ShRl => GbAlu.Rl(v, F, setZFlag)
    case ShRr => GbAlu.Rr(v, F, setZFlag)
    case ShSla => GbAlu.Sla(v, F)
    case ShSra => GbAlu.Sra(v, F)
    case ShSwap => GbAlu.Swap(v, F)
    case ShSrl => GbAlu.Srl(v, F)
  }

  /** The bit index of BIT, RES and SET is a bit of the byte. */
  predicate CbOk(c: CbInstr)
  {
    !c.Shift? ==> c.n < 8
  }

  /** What a CB instruction leaves in its operand, and the new F. testBit leaves the operand
   *  alone; resetBit and setBit leave F alone. */
  function CbResult(c: CbInstr, v: byte, F: byte): (r: GbAlu.Out)
    requires CbOk(c)
    ensures c.TestBit? ==> r.value == v
    ensures c.ResetBit? || c.SetBit? ==> r.f == F
  {
    match c
    case Shift(s, _) => ShiftResult(s, v, F, true)
    case TestBit(n, _) => GbAlu.Out(v, GbAlu.TestBit(v, n, F))
    case ResetBit(n, _) => GbAlu.Out(GbAlu.ResBit(v, n), F)
    case SetBit(n, _) => GbAlu.Out(GbAlu.SetBit(v, n), F)
  }

  lemma DecodeCBOk(op: byte)
    ensures CbOk(DecodeCB(op))
  {
  }

  // ---------------------------------------------------------------------------------------
  // Instructions on the register file alone

  /** The instructions that read and write registers only. */
  predicate RegisterForm(i: Instr)
  {
    match i
    case Load8(d, s) => d != OpHL && s != OpHL
    case Inc8(o) => o != OpHL
    case Dec8(o) => o != OpHL
    case Alu(_, s) => s != OpHL
    case RotateA(s) => ShiftOpCode(s) < 4
    case Daa => true
    case Cpl => true
    case Scf => true
    case Ccf => true
    case Inc16(_) => true
    case Dec16(_) => true
    case AddHL(_) => true
    case LoadSPHL => true
    case _ => false
  }

  /** The register file with a helper's value stored in operand o and its F. */
  function WithOut(g: seq<byte>, o: Operand, r: GbAlu.Out): (h: seq<byte>)
    requires |g| == 10 && o != OpHL
    ensures |h| == 10
  {
    g[RegIndex(OperandReg(o)) := r.value][1 := r.f]
  }

  /** A register-form instruction on the register file g (index 0 is A, 1 is F). */
  function RegisterStep(i: Instr, g: seq<byte>): (h: seq<byte>)
    requires |g| == 10 && RegisterForm(i)
    ensures |h| == 10
  {
    match i
    case Load8(d, s) => g[RegIndex(OperandReg(d)) := Reg(g, s)]
    case Inc8(o) => WithOut(g, o, GbAlu.Inc8(Reg(g, o), g[1]))
    case Dec8(o) => WithOut(g, o, GbAlu.Dec8(Reg(g, o), g[1]))
    case Alu(a, s) => WithOut(g, OpA, AluResult(a, g[0], Reg(g, s), g[1]))
    case RotateA(s) => WithOut(g, OpA, ShiftResult(s, g[0], g[1], false))
    case Daa => WithOut(g, OpA, GbAlu.Daa(g[0], g[1]))
    case Cpl => WithOut(g, OpA, GbAlu.Cpl(g[0], g[1]))
    case Scf => g[1 := GbAlu.Scf(g[1])]
    case Ccf => g[1 := GbAlu.Ccf(g[1])]
    case Inc16(rr) => WithReg16(g, rr, Reg16Of(g, rr) + 1)
    case Dec16(rr) => WithReg16(g, rr, Reg16Of(g, rr) - 1)
    case AddHL(rr) =>
      var r := GbAlu.Add16(Reg16Of(g, HL), Reg16Of(g, rr), g[1]);
      WithReg16(g, HL, r.value)[1 := r.f]
    case LoadSPHL => WithReg16(g, SP, Reg16Of(g, HL))
  }

  /** The internal M-cycle of INC rr, DEC rr, ADD HL, rr and LD SP, HL. */
  function ExtraCycles(i: Instr): nat
  {
    if i.Inc16? || i.Dec16? || i.AddHL? || i.LoadSPHL? then 4 else 0
  }

  /** LD d, s copies s into d and changes no other register; LD r, r changes nothing. */
  lemma LoadCopies(d: Operand, s: Operand, g: seq<byte>)
    requires |g| == 10 && d != OpHL && s != OpHL
    ensures Reg(RegisterStep(Load8(d, s), g), d) == Reg(g, s)
    ensures forall k :: 0 <= k < 10 && k != RegIndex(OperandReg(d)) ==> RegisterStep(Load8(d, s), g)[k] == g[k]
    ensures d == s ==> RegisterStep(Load8(d, s), g) == g
  {
  }

  /** CP is SUB with A left as it was: the same F, and A not written. */
  lemma CompareIsSubtractWithoutStore(s: Operand, g: seq<byte>)
    requires |g| == 10 && s != OpHL
    ensures RegisterStep(Alu(AluCp, s), g) == RegisterStep(Alu(AluSub, s), g)[0 := g[0]]
  {
  }

  /** An ALU instruction writes A and F only. */
  lemma AluWritesOnlyAF(a: AluOp, s: Operand, g: seq<byte>)
    requires |g| == 10 && s != OpHL
    ensures forall k :: 2 <= k < 10 ==> RegisterStep(Alu(a, s), g)[k] == g[k]
  {
  }

  /** XOR A clears A and leaves only Z set among the flags. */
  lemma XorAClears(g: seq<byte>)
    requires |g| == 10
    ensures RegisterStep(Alu(AluXor, OpA), g)[0] == 0
    ensures GbAlu.FlagsAre(RegisterStep(Alu(AluXor, OpA), g)[1], true, false, false, false)
  {
  }

  /** INC rr then DEC rr restores every register: neither touches the flags. */
  lemma Inc16Dec16RoundTrip(rr: Reg16, g: seq<byte>)
    requires |g| == 10
    ensures RegisterStep(Dec16(rr), RegisterStep(Inc16(rr), g)) == g
  {
    var v := Reg16Of(g, rr);
    var h := RegisterStep(Inc16(rr), g);
    assert h == WithReg16(g, rr, v + 1);
    var y := Reg16Of(h, rr);
    assert RegisterStep(Dec16(rr), h) == WithReg16(h, rr, y - 1);
    Reg16UpDown(g, h, rr, v, y);
  }

  lemma Reg16UpDown(g: seq<byte>, h: seq<byte>, rr: Reg16, x: word, y: word)
    requires |g| == 10 && x == Reg16Of(g, rr) && h == WithReg16(g, rr, x + 1) && y == Reg16Of(h, rr)
    ensures WithReg16(h, rr, y - 1) == g
  {
    Reg16RoundTrip(g, rr, x + 1);
    assert y - 1 == x;
    Reg16RoundTrip(h, rr, x);
    SamePair(WithReg16(h, rr, x), g, rr);
  }

  /** INC r then DEC r restores r and the carry flag. */
  lemma Inc8Dec8RoundTrip(o: Operand, g: seq<byte>)
    requires |g| == 10 && o != OpHL
    ensures Reg(RegisterStep(Dec8(o), RegisterStep(Inc8(o), g)), o) == Reg(g, o)
    ensures GbAlu.GetFlag(RegisterStep(Dec8(o), RegisterStep(Inc8(o), g))[1], GbAlu.FlagC) == GbAlu.GetFlag(g[1], GbAlu.FlagC)
    ensures forall k :: 2 <= k < 10 && k != RegIndex(OperandReg(o)) ==>
              RegisterStep(Dec8(o), RegisterStep(Inc8(o), g))[k] == g[k]
  {
    GbAlu.IncDecRoundTrip(Reg(g, o), g[1]);
  }

  /** RLCA, RRCA, RLA and RRA always clear Z, where their CB forms set it from the result. */
  lemma RotateAClearsZero(s: ShiftOp, g: seq<byte>)
    requires |g| == 10 && ShiftOpCode(s) < 4
    ensures !GbAlu.GetFlag(RegisterStep(RotateA(s), g)[1], GbAlu.FlagZ)
    ensures GbAlu.GetFlag(CbResult(Shift(s, OpA), g[0], g[1]).f, GbAlu.FlagZ) == (CbResult(Shift(s, OpA), g[0], g[1]).value == 0)
  {
  }

  /** Replaces the register file. Valid does not depend on it. */
  method SetRegisters(gb: GB, g: seq<byte>)
    requires gb.Valid() && |g| == 10
    modifies gb.GPR
    ensures gb.Valid() && gb.GPR[..] == g
  {
    forall k | 0 <= k < 10 {
      gb.GPR[k] := g[k];
    }
  }

  /** A register-form instruction: RegisterStep on GPR, plus the internal M-cycle of the
   *  16-bit ones. */
  method ExecRegister(gb: GB, i: Instr)
    requires gb.Valid() && RegisterForm(i)
    modifies gb.GPR
    modifies gb`clock, gb.OAM, gb`mCyclesSinceDMA, gb`dmaSource, gb`doingDMA, gb`scheduleDMA, gb`scheduled_dmaTimer
    ensures gb.Valid() && gb.GPR[..] == RegisterStep(i, old(gb.GPR[..]))
    ensures gb.clock == old(gb.clock) + ExtraCycles(i)
  {
    var g := RegisterStep(i, gb.GPR[..]);
    if ExtraCycles(i) != 0 {
      GbDma.CyclesSync4Valid(gb);
    }
    SetRegisters(gb, g);
  }

  // ---------------------------------------------------------------------------------------
  // Loads and stores through the bus

  /** readAddr_4C into register r: LOAD_R_ARR, LOAD_R_MEM, LOAD_R_D8PORT, LOAD_R_RPORT. */
  method LoadFrom(gb: GB, addr: word, r: Reg8) returns (b: byte)
    requires gb.Valid()
    modifies gb.GPR, gb.IO, gb`lastDIVSync, gb`lastTIMASync
    modifies gb`clock, gb.OAM, gb`mCyclesSinceDMA, gb`dmaSource, gb`doingDMA, gb`scheduleDMA, gb`scheduled_dmaTimer
    ensures gb.Valid() && gb.clock == old(gb.clock) + 4
    ensures gb.GPR[..] == old(gb.GPR[..])[RegIndex(r) := b]
    ensures !TimerAddress(addr) ==> b == old(Peek(gb, addr)) && unchanged(gb.IO)
  {
    b := GbCpu.ReadAddr4C(gb, addr);
    gb.GPR[RegIndex(r)] := b;
  }

  /** LOAD_R_D8: the operand byte into register r. */
  method LoadImmediate(gb: GB, r: Reg8) returns (b: byte)
    requires gb.Valid()
    modifies gb.GPR, gb.IO, gb`lastDIVSync, gb`lastTIMASync, gb`PC
    modifies gb`clock, gb.OAM, gb`mCyclesSinceDMA, gb`dmaSource, gb`doingDMA, gb`scheduleDMA, gb`scheduled_dmaTimer
    ensures gb.Valid() && gb.clock == old(gb.clock) + 4 && gb.PC == Advance(old(gb.PC), 1)
    ensures gb.GPR[..] == old(gb.GPR[..])[RegIndex(r) := b]
    ensures !TimerAddress(old(gb.PC)) ==> b == old(Peek(gb, gb.PC))
  {
    b := GbCpu.ReadByte4C(gb);
    gb.GPR[RegIndex(r)] := b;
  }

  /** LOAD_ARR_D8 (HL): the operand byte stored at HL. */
  method StoreImmediate(gb: GB) returns (b: byte)
    requires gb.Valid()
    modifies gb.IO, gb.wram, gb.vram, gb.hram, gb.OAM, gb.bgColorRAM, gb.spriteColorRAM, GbMbc.Repr(gb.mbc)
    modifies gb`IE, gb`lastDIVSync, gb`lastTIMASync, gb`joypadSelectedMode, gb`selectedWRAMBank,
             gb`selectedVRAMBank, gb`currentBackgroundCRAMIndex, gb`currentSpriteCRAMIndex
    modifies gb`ppuMode, gb`cyclesSinceLastMode, gb`lockVRAM, gb`lockOAM, gb`lockPalettes, gb`ppuEnabled,
             gb`skipFrame, gb`cyclesSinceLastFrame
    modifies gb`scheduled_dmaSource, gb`scheduled_dmaTimer, gb`scheduleDMA
    modifies gb`clock, gb`mCyclesSinceDMA, gb`dmaSource, gb`doingDMA, gb`PC
    ensures gb.Valid() && gb.clock == old(gb.clock) + 8 && gb.PC == Advance(old(gb.PC), 1)
    ensures !TimerAddress(old(gb.PC)) ==> b == old(Peek(gb, gb.PC))
    ensures PlainRam(AreaOf(Reg16Of(old(gb.GPR[..]), HL))) ==>
              RamStored(gb, old(gb.wram[..]), old(gb.hram[..]), Reg16Of(old(gb.GPR[..]), HL), b)
  {
    b := GbCpu.ReadByte4C(gb);
    GbCpu.WriteAddr4C(gb, gb.GetReg16(HL), b);
  }

  /** The address of an indirect form and the HL after it (HL+1 for 0x22/0x2A, HL-1 for
   *  0x32/0x3A; the other forms leave the registers alone). */
  function IndirectAddress(g: seq<byte>, via: Indirect): word
    requires |g| == 10
  {
    match via
    case ViaBC => Reg16Of(g, BC)
    case ViaDE => Reg16Of(g, DE)
    case _ => Reg16Of(g, HL)
  }

  function AfterIndirect(g: seq<byte>, via: Indirect): (h: seq<byte>)
    requires |g| == 10
    ensures |h| == 10
  {
    match via
    case ViaHLInc => WithReg16(g, HL, Reg16Of(g, HL) + 1)
    case ViaHLDec => WithReg16(g, HL, Reg16Of(g, HL) - 1)
    case _ => g
  }

  /** LD (rr), A: A stored at the address, then the HL step. */
  method StoreIndirect(gb: GB, via: Indirect)
    requires gb.Valid()
    modifies gb.IO, gb.wram, gb.vram, gb.hram, gb.OAM, gb.bgColorRAM, gb.spriteColorRAM, GbMbc.Repr(gb.mbc)
    modifies gb`IE, gb`lastDIVSync, gb`lastTIMASync, gb`joypadSelectedMode, gb`selectedWRAMBank,
             gb`selectedVRAMBank, gb`currentBackgroundCRAMIndex, gb`currentSpriteCRAMIndex
    modifies gb`ppuMode, gb`cyclesSinceLastMode, gb`lockVRAM, gb`lockOAM, gb`lockPalettes, gb`ppuEnabled,
             gb`skipFrame, gb`cyclesSinceLastFrame
    modifies gb`scheduled_dmaSource, gb`scheduled_dmaTimer, gb`scheduleDMA
    modifies gb`clock, gb`mCyclesSinceDMA, gb`dmaSource, gb`doingDMA, gb.GPR
    ensures gb.Valid() && gb.clock == old(gb.clock) + 4
    ensures gb.GPR[..] == AfterIndirect(old(gb.GPR[..]), via)
    ensures PlainRam(AreaOf(IndirectAddress(old(gb.GPR[..]), via))) ==>
              RamStored(gb, old(gb.wram[..]), old(gb.hram[..]), IndirectAddress(old(gb.GPR[..]), via), old(gb.GPR[0]))
  {
    var g := gb.GPR[..];
    GbCpu.WriteAddr4C(gb, IndirectAddress(g, via), g[0]);
    SetRegisters(gb, AfterIndirect(g, via));
  }

  /** LD A, (rr): the byte at the address into A, then the HL step. */
  method LoadIndirect(gb: GB, via: Indirect) returns (b: byte)
    requires gb.Valid()
    modifies gb.GPR, gb.IO, gb`lastDIVSync, gb`lastTIMASync
    modifies gb`clock, gb.OAM, gb`mCyclesSinceDMA, gb`dmaSource, gb`doingDMA, gb`scheduleDMA, gb`scheduled_dmaTimer
    ensures gb.Valid() && gb.clock == old(gb.clock) + 4
    ensures gb.GPR[..] == AfterIndirect(old(gb.GPR[..]), via)[0 := b]
    ensures !TimerAddress(IndirectAddress(old(gb.GPR[..]), via)) ==> b == old(Peek(gb, IndirectAddress(gb.GPR[..], via)))
  {
    var g := gb.GPR[..];
    b := GbCpu.ReadAddr4C(gb, IndirectAddress(g, via));
    SetRegisters(gb, AfterIndirect(g, via)[0 := b]);
  }

  /** The high page FF00-FFFF, addressed by an offset byte. */
  function HighAddress(n: byte): (a: word)
    ensures Hi(a) == 0xFF && Lo(a) == n
  {
    HiLoJoin(0xFF, n);
    Join(0xFF, n)
  }

  /** Between two states, nothing that a byte of the high page depends on has changed: the
   *  I/O registers, HRAM, IE, the palette lock and the colour RAMs with their indices. */
  twostate predicate HighPageKept(gb: GB, n: byte)
    requires old(gb.Shape() && gb.BanksOk()) && gb.Shape() && gb.BanksOk()
    reads gb, gb.IO, gb.hram, gb.bgColorRAM, gb.spriteColorRAM
    ensures HighPageKept(gb, n) ==> Peek(gb, HighAddress(n)) == old(Peek(gb, HighAddress(n)))
  {
    unchanged(gb.IO, gb.hram) &&
    (gb.bgColorRAM != null ==> unchanged(gb.bgColorRAM, gb.spriteColorRAM)) &&
    unchanged(gb`IE, gb`lockPalettes, gb`currentBackgroundCRAMIndex, gb`currentSpriteCRAMIndex)
  }

  /** LOAD_D8PORT_R (0xE0): A stored at FF00 + the operand byte. */
  method StoreHigh(gb: GB) returns (n: byte)
    requires gb.Valid()
    modifies gb.IO, gb.wram, gb.vram, gb.hram, gb.OAM, gb.bgColorRAM, gb.spriteColorRAM, GbMbc.Repr(gb.mbc)
    modifies gb`IE, gb`lastDIVSync, gb`lastTIMASync, gb`joypadSelectedMode, gb`selectedWRAMBank,
             gb`selectedVRAMBank, gb`currentBackgroundCRAMIndex, gb`currentSpriteCRAMIndex
    modifies gb`ppuMode, gb`cyclesSinceLastMode, gb`lockVRAM, gb`lockOAM, gb`lockPalettes, gb`ppuEnabled,
             gb`skipFrame, gb`cyclesSinceLastFrame
    modifies gb`scheduled_dmaSource, gb`scheduled_dmaTimer, gb`scheduleDMA
    modifies gb`clock, gb`mCyclesSinceDMA, gb`dmaSource, gb`doingDMA, gb`PC
    ensures gb.Valid() && gb.clock == old(gb.clock) + 8 && gb.PC == Advance(old(gb.PC), 1)
    ensures !TimerAddress(old(gb.PC)) ==> n == old(Peek(gb, gb.PC))
    ensures PlainRam(AreaOf(HighAddress(n))) ==>
              RamStored(gb, old(gb.wram[..]), old(gb.hram[..]), HighAddress(n), old(gb.GPR[0]))
  {
    n := GbCpu.ReadByte4C(gb);
    GbCpu.WriteAddr4C(gb, HighAddress(n), gb.GPR[0]);
  }

  /** LOAD_R_D8PORT (0xF0): the byte at FF00 + the operand byte into A. */
  method LoadHigh(gb: GB) returns (n: byte, b: byte)
    requires gb.Valid()
    modifies gb.GPR, gb.IO, gb`lastDIVSync, gb`lastTIMASync, gb`PC
    modifies gb`clock, gb.OAM, gb`mCyclesSinceDMA, gb`dmaSource, gb`doingDMA, gb`scheduleDMA, gb`scheduled_dmaTimer
    ensures gb.Valid() && gb.clock == old(gb.clock) + 8 && gb.PC == Advance(old(gb.PC), 1)
    ensures gb.GPR[..] == old(gb.GPR[..])[0 := b]
    ensures !TimerAddress(old(gb.PC)) ==> n == old(Peek(gb, gb.PC))
    ensures !TimerAddress(old(gb.PC)) && !TimerAddress(HighAddress(n)) ==> b == old(Peek(gb, HighAddress(n)))
  {
    label fetch:
    n := GbCpu.ReadByte4C(gb);
    assert !TimerAddress(old(gb.PC)) ==> HighPageKept@fetch(gb, n);
    b := LoadFrom(gb, HighAddress(n), RegA);
  }

  /** LOAD_R_MEM (0xFA): the byte at the 16-bit operand into A. */
  method LoadAbsolute(gb: GB) returns (a: word, b: byte)
    requires gb.Valid()
    modifies gb.GPR, gb.IO, gb`lastDIVSync, gb`lastTIMASync, gb`PC
    modifies gb`clock, gb.OAM, gb`mCyclesSinceDMA, gb`dmaSource, gb`doingDMA, gb`scheduleDMA, gb`scheduled_dmaTimer
    ensures gb.Valid() && gb.clock == old(gb.clock) + 12 && gb.PC == Advance(old(gb.PC), 2)
    ensures gb.GPR[..] == old(gb.GPR[..])[0 := b]
    ensures GbCpu.PlainOperands(old(gb.PC)) ==> a == Join(old(Peek(gb, gb.PC + 1)), old(Peek(gb, gb.PC)))
  {
    a := GbCpu.Read2Bytes8C(gb);
    b := LoadFrom(gb, a, RegA);
  }

  /** LOAD_MEM_R (0xEA): A stored at the 16-bit operand. */
  method StoreAbsolute(gb: GB) returns (a: word)
    requires gb.Valid()
    modifies gb.IO, gb.wram, gb.vram, gb.hram, gb.OAM, gb.bgColorRAM, gb.spriteColorRAM, GbMbc.Repr(gb.mbc)
    modifies gb`IE, gb`lastDIVSync, gb`lastTIMASync, gb`joypadSelectedMode, gb`selectedWRAMBank,
             gb`selectedVRAMBank, gb`currentBackgroundCRAMIndex, gb`currentSpriteCRAMIndex
    modifies gb`ppuMode, gb`cyclesSinceLastMode, gb`lockVRAM, gb`lockOAM, gb`lockPalettes, gb`ppuEnabled,
             gb`skipFrame, gb`cyclesSinceLastFrame
    modifies gb`scheduled_dmaSource, gb`scheduled_dmaTimer, gb`scheduleDMA
    modifies gb`clock, gb`mCyclesSinceDMA, gb`dmaSource, gb`doingDMA, gb`PC
    ensures gb.Valid() && gb.clock == old(gb.clock) + 12 && gb.PC == Advance(old(gb.PC), 2)
    ensures GbCpu.PlainOperands(old(gb.PC)) ==> a == Join(old(Peek(gb, gb.PC + 1)), old(Peek(gb, gb.PC)))
    ensures PlainRam(AreaOf(a)) ==> RamStored(gb, old(gb.wram[..]), old(gb.hram[..]), a, old(gb.GPR[0]))
  {
    a := GbCpu.Read2Bytes8C(gb);
    GbCpu.WriteAddr4C(gb, a, gb.GPR[0]);
  }

  /** Opcode 0x08: SP stored at the 16-bit operand, high byte at a + 1 first, then the low
   *  byte at a. */
  method StoreSP(gb: GB) returns (a: word)
    requires gb.Valid()
    modifies gb.IO, gb.wram, gb.vram, gb.hram, gb.OAM, gb.bgColorRAM, gb.spriteColorRAM, GbMbc.Repr(gb.mbc)
    modifies gb`IE, gb`lastDIVSync, gb`lastTIMASync, gb`joypadSelectedMode, gb`selectedWRAMBank,
             gb`selectedVRAMBank, gb`currentBackgroundCRAMIndex, gb`currentSpriteCRAMIndex
    modifies gb`ppuMode, gb`cyclesSinceLastMode, gb`lockVRAM, gb`lockOAM, gb`lockPalettes, gb`ppuEnabled,
             gb`skipFrame, gb`cyclesSinceLastFrame
    modifies gb`scheduled_dmaSource, gb`scheduled_dmaTimer, gb`scheduleDMA
    modifies gb`clock, gb`mCyclesSinceDMA, gb`dmaSource, gb`doingDMA, gb`PC
    ensures gb.Valid() && gb.clock == old(gb.clock) + 16 && gb.PC == Advance(old(gb.PC), 2)
    ensures GbCpu.PlainOperands(old(gb.PC)) ==> a == Join(old(Peek(gb, gb.PC + 1)), old(Peek(gb, gb.PC)))
    ensures GbCpu.StackSlot(a) ==> GbCpu.StackWord(gb, a) == Reg16Of(old(gb.GPR[..]), SP)
  {
    a := GbCpu.Read2Bytes8C(gb);
    StoreWord(gb, a, gb.GetReg16(SP));
  }

  method StoreWord(gb: GB, a: word, v: word)
    requires gb.Valid()
    modifies gb.IO, gb.wram, gb.vram, gb.hram, gb.OAM, gb.bgColorRAM, gb.spriteColorRAM, GbMbc.Repr(gb.mbc)
    modifies gb`IE, gb`lastDIVSync, gb`lastTIMASync, gb`joypadSelectedMode, gb`selectedWRAMBank,
             gb`selectedVRAMBank, gb`currentBackgroundCRAMIndex, gb`currentSpriteCRAMIndex
    modifies gb`ppuMode, gb`cyclesSinceLastMode, gb`lockVRAM, gb`lockOAM, gb`lockPalettes, gb`ppuEnabled,
             gb`skipFrame, gb`cyclesSinceLastFrame
    modifies gb`scheduled_dmaSource, gb`scheduled_dmaTimer, gb`scheduleDMA
    modifies gb`clock, gb`mCyclesSinceDMA, gb`dmaSource, gb`doingDMA
    ensures gb.Valid() && gb.clock == old(gb.clock) + 8
    ensures GbCpu.StackSlot(a) ==> GbCpu.StackWord(gb, a) == v
  {
    GbCpu.PushBytes(gb, a, Hi(v), Lo(v));
    JoinHiLo(v);
  }

  /** read2Bytes: the low byte at PC, the high byte at PC + 1, no cycles. (The C expression
   *  increments PC twice without a sequence point; the model reads in address order.) */
  method Read2Bytes(gb: GB) returns (w: word)
    requires gb.Valid()
    modifies gb.IO, gb`lastDIVSync, gb`lastTIMASync, gb`PC
    ensures gb.Valid() && gb.PC == old(gb.PC) + 2
    ensures !TimerAddress(old(gb.PC)) ==> Lo(w) == old(Peek(gb, gb.PC))
    ensures GbCpu.PlainOperands(old(gb.PC)) ==> w == Join(old(Peek(gb, gb.PC + 1)), old(Peek(gb, gb.PC)))
  {
    label fetch:
    var lo := GbCpu.ReadByte(gb);
    assert GbCpu.PlainOperands(old(gb.PC)) ==> GbCpu.PeekKept@fetch(gb, gb.PC);
    var hi := GbCpu.ReadByte(gb);
    w := Join(hi, lo);
    HiLoJoin(hi, lo);
  }

  /** LOAD_RR_D16: the 16-bit operand into rr through set_reg16_8C (two M-cycles). */
  method LoadImmediate16(gb: GB, rr: Reg16) returns (w: word)
    requires gb.Valid()
    modifies gb.GPR, gb.IO, gb`lastDIVSync, gb`lastTIMASync, gb`PC
    modifies gb`clock, gb.OAM, gb`mCyclesSinceDMA, gb`dmaSource, gb`doingDMA, gb`scheduleDMA, gb`scheduled_dmaTimer
    ensures gb.Valid() && gb.clock == old(gb.clock) + 8 && gb.PC == Advance(old(gb.PC), 2)
    ensures gb.GPR[..] == WithReg16(old(gb.GPR[..]), rr, w)
    ensures !TimerAddress(old(gb.PC)) ==> Lo(w) == old(Peek(gb, gb.PC))
    ensures GbCpu.PlainOperands(old(gb.PC)) ==> w == Join(old(Peek(gb, gb.PC + 1)), old(Peek(gb, gb.PC)))
  {
    w := Read2Bytes(gb);
    SetReg16Timed(gb, rr, w);
  }

  /** set_reg16_8C: the high byte, an M-cycle, the low byte, an M-cycle. */
  method SetReg16Timed(gb: GB, rr: Reg16, v: word)
    requires gb.Valid()
    modifies gb.GPR
    modifies gb`clock, gb.OAM, gb`mCyclesSinceDMA, gb`dmaSource, gb`doingDMA, gb`scheduleDMA, gb`scheduled_dmaTimer
    ensures gb.Valid() && gb.clock == old(gb.clock) + 8
    ensures gb.GPR[..] == WithReg16(old(gb.GPR[..]), rr, v)
  {
    GbCpu.Idle8(gb);
    var _ := GbCpu.SetReg16Valid(gb, rr, v);
  }

  // ---------------------------------------------------------------------------------------
  // Arithmetic on (HL) and on immediate operands

  /** A and F from an ALU helper applied to A and v. */
  method ApplyAlu(gb: GB, a: AluOp, v: byte)
    requires gb.Valid()
    modifies gb.GPR
    ensures gb.Valid()
    ensures gb.GPR[..] == WithOut(old(gb.GPR[..]), OpA, AluResult(a, old(gb.GPR[0]), v, old(gb.GPR[1])))
  {
    var r := AluResult(a, gb.GPR[0], v, gb.GPR[1]);
    gb.GPR[0] := r.value;
    gb.GPR[1] := r.f;
  }

  /** addR8_AR16 ... compareR8_AR16: the ALU operation on A and the byte at HL. */
  method AluOnHL(gb: GB, a: AluOp) returns (v: byte)
    requires gb.Valid()
    modifies gb.GPR, gb.IO, gb`lastDIVSync, gb`lastTIMASync
    modifies gb`clock, gb.OAM, gb`mCyclesSinceDMA, gb`dmaSource, gb`doingDMA, gb`scheduleDMA, gb`scheduled_dmaTimer
    ensures gb.Valid() && gb.clock == old(gb.clock) + 4
    ensures gb.GPR[..] == WithOut(old(gb.GPR[..]), OpA, AluResult(a, old(gb.GPR[0]), v, old(gb.GPR[1])))
    ensures !TimerAddress(Reg16Of(old(gb.GPR[..]), HL)) ==> v == old(Peek(gb, Reg16Of(gb.GPR[..], HL)))
  {
    v := GbCpu.ReadAddr4C(gb, gb.GetReg16(HL));
    ApplyAlu(gb, a, v);
  }

  /** addR8D8 ... compareR8D8: the ALU operation on A and the operand byte. */
  method AluImmediate(gb: GB, a: AluOp) returns (v: byte)
    requires gb.Valid()
    modifies gb.GPR, gb.IO, gb`lastDIVSync, gb`lastTIMASync, gb`PC
    modifies gb`clock, gb.OAM, gb`mCyclesSinceDMA, gb`dmaSource, gb`doingDMA, gb`scheduleDMA, gb`scheduled_dmaTimer
    ensures gb.Valid() && gb.clock == old(gb.clock) + 4 && gb.PC == Advance(old(gb.PC), 1)
    ensures gb.GPR[..] == WithOut(old(gb.GPR[..]), OpA, AluResult(a, old(gb.GPR[0]), v, old(gb.GPR[1])))
    ensures !TimerAddress(old(gb.PC)) ==> v == old(Peek(gb, gb.PC))
  {
    v := GbCpu.ReadByte4C(gb);
    ApplyAlu(gb, a, v);
  }

  /** Opcodes 0x34 and 0x35: the byte at HL read, the flags set as incrementR8 /
   *  decrementR8 set them, and the new byte written back. */
  method IncDecOnHL(gb: GB, increment: bool) returns (v: byte, r: GbAlu.Out)
    requires gb.Valid()
    modifies gb.IO, gb.wram, gb.vram, gb.hram, gb.OAM, gb.bgColorRAM, gb.spriteColorRAM, GbMbc.Repr(gb.mbc)
    modifies gb`IE, gb`lastDIVSync, gb`lastTIMASync, gb`joypadSelectedMode, gb`selectedWRAMBank,
             gb`selectedVRAMBank, gb`currentBackgroundCRAMIndex, gb`currentSpriteCRAMIndex
    modifies gb`ppuMode, gb`cyclesSinceLastMode, gb`lockVRAM, gb`lockOAM, gb`lockPalettes, gb`ppuEnabled,
             gb`skipFrame, gb`cyclesSinceLastFrame
    modifies gb`scheduled_dmaSource, gb`scheduled_dmaTimer, gb`scheduleDMA
    modifies gb`clock, gb`mCyclesSinceDMA, gb`dmaSource, gb`doingDMA, gb.GPR
    ensures gb.Valid() && gb.clock == old(gb.clock) + 8
    ensures r == (if increment then GbAlu.Inc8(v, old(gb.GPR[1])) else GbAlu.Dec8(v, old(gb.GPR[1])))
    ensures gb.GPR[..] == old(gb.GPR[..])[1 := r.f]
    ensures !TimerAddress(Reg16Of(old(gb.GPR[..]), HL)) ==> v == old(Peek(gb, Reg16Of(gb.GPR[..], HL)))
    ensures PlainRam(AreaOf(Reg16Of(old(gb.GPR[..]), HL))) ==>
              RamStored(gb, old(gb.wram[..]), old(gb.hram[..]), Reg16Of(old(gb.GPR[..]), HL), r.value)
  {
    var addr := gb.GetReg16(HL);
    v := GbCpu.ReadAddr4C(gb, addr);
    r := if increment then GbAlu.Inc8(v, gb.GPR[1]) else GbAlu.Dec8(v, gb.GPR[1]);
    SetRegisters(gb, gb.GPR[..][1 := r.f]);
    GbCpu.WriteAddr4C(gb, addr, r.value);
  }

  /** addR16I8 (ADD SP, e8): the signed operand added to SP, stored through set_reg16_8C. */
  method AddToSP(gb: GB) returns (e: byte)
    requires gb.Valid()
    modifies gb.GPR, gb.IO, gb`lastDIVSync, gb`lastTIMASync, gb`PC
    modifies gb`clock, gb.OAM, gb`mCyclesSinceDMA, gb`dmaSource, gb`doingDMA, gb`scheduleDMA, gb`scheduled_dmaTimer
    ensures gb.Valid() && gb.clock == old(gb.clock) + 12 && gb.PC == Advance(old(gb.PC), 1)
    ensures gb.GPR[..] ==
              WithReg16(old(gb.GPR[..]), SP, GbAlu.AddSpE8(Reg16Of(old(gb.GPR[..]), SP), e, old(gb.GPR[1])).value)
                [1 := GbAlu.AddSpE8(Reg16Of(old(gb.GPR[..]), SP), e, old(gb.GPR[1])).f]
    ensures !TimerAddress(old(gb.PC)) ==> e == old(Peek(gb, gb.PC))
  {
    e := GbCpu.ReadByte4C(gb);
    var r := GbAlu.AddSpE8(gb.GetReg16(SP), e, gb.GPR[1]);
    GbCpu.Idle8(gb);
    SetRegisters(gb, WithReg16(gb.GPR[..], SP, r.value)[1 := r.f]);
  }

  /** load_rr_rri8 (LD HL, SP + e8): the same sum and flags, stored in HL, then an internal
   *  M-cycle. */
  method LoadSPOffset(gb: GB) returns (e: byte)
    requires gb.Valid()
    modifies gb.GPR, gb.IO, gb`lastDIVSync, gb`lastTIMASync, gb`PC
    modifies gb`clock, gb.OAM, gb`mCyclesSinceDMA, gb`dmaSource, gb`doingDMA, gb`scheduleDMA, gb`scheduled_dmaTimer
    ensures gb.Valid() && gb.clock == old(gb.clock) + 8 && gb.PC == Advance(old(gb.PC), 1)
    ensures gb.GPR[..] ==
              WithReg16(old(gb.GPR[..]), HL, GbAlu.AddSpE8(Reg16Of(old(gb.GPR[..]), SP), e, old(gb.GPR[1])).value)
                [1 := GbAlu.AddSpE8(Reg16Of(old(gb.GPR[..]), SP), e, old(gb.GPR[1])).f]
    ensures !TimerAddress(old(gb.PC)) ==> e == old(Peek(gb, gb.PC))
  {
    e := GbCpu.ReadByte4C(gb);
    var r := GbAlu.AddSpE8(gb.GetReg16(SP), e, gb.GPR[1]);
    SetRegisters(gb, WithReg16(gb.GPR[..], HL, r.value)[1 := r.f]);
    GbDma.CyclesSync4Valid(gb);
  }

  // ---------------------------------------------------------------------------------------
  // The CB-prefixed instructions

  /** A CB instruction on a register operand: the helper's value stored back, and its F. */
  function CbRegisterStep(c: CbInstr, g: seq<byte>): (h: seq<byte>)
    requires |g| == 10 && CbOk(c) && c.o != OpHL
    ensures |h| == 10
  {
    WithOut(g, c.o, CbResult(c, Reg(g, c.o), g[1]))
  }

  /** The bus M-cycles of a CB instruction after its second byte: none on a register, a read
   *  for BIT n, (HL), a read and a write for the others on (HL). */
  function CbCycles(c: CbInstr): nat
  {
    if c.o != OpHL then 0 else if c.TestBit? then 4 else 8
  }

  /** The (HL) forms of prefixCB: the byte read, F set, and (except for BIT) the result
   *  written back to HL. */
  method CbOnHL(gb: GB, c: CbInstr) returns (v: byte)
    requires gb.Valid() && CbOk(c)
    modifies gb.IO, gb.wram, gb.vram, gb.hram, gb.OAM, gb.bgColorRAM, gb.spriteColorRAM, GbMbc.Repr(gb.mbc)
    modifies gb`IE, gb`lastDIVSync, gb`lastTIMASync, gb`joypadSelectedMode, gb`selectedWRAMBank,
             gb`selectedVRAMBank, gb`currentBackgroundCRAMIndex, gb`currentSpriteCRAMIndex
    modifies gb`ppuMode, gb`cyclesSinceLastMode, gb`lockVRAM, gb`lockOAM, gb`lockPalettes, gb`ppuEnabled,
             gb`skipFrame, gb`cyclesSinceLastFrame
    modifies gb`scheduled_dmaSource, gb`scheduled_dmaTimer, gb`scheduleDMA
    modifies gb`clock, gb`mCyclesSinceDMA, gb`dmaSource, gb`doingDMA, gb.GPR
    ensures gb.Valid() && gb.clock == old(gb.clock) + CbCycles(c.(o := OpHL))
    ensures gb.GPR[..] == old(gb.GPR[..])[1 := CbResult(c, v, old(gb.GPR[1])).f]
    ensures !TimerAddress(Reg16Of(old(gb.GPR[..]), HL)) ==> v == old(Peek(gb, Reg16Of(gb.GPR[..], HL)))
    ensures !c.TestBit? && PlainRam(AreaOf(Reg16Of(old(gb.GPR[..]), HL))) ==>
              RamStored(gb, old(gb.wram[..]), old(gb.hram[..]), Reg16Of(old(gb.GPR[..]), HL),
                        CbResult(c, v, old(gb.GPR[1])).value)
  {
    var addr := gb.GetReg16(HL);
    v := GbCpu.ReadAddr4C(gb, addr);
    var r := CbResult(c, v, gb.GPR[1]);
    SetRegisters(gb, gb.GPR[..][1 := r.f]);
    if !c.TestBit? {
      GbCpu.WriteAddr4C(gb, addr, r.value);
    }
  }

  /** prefixCB: the second opcode byte fetched and decoded by DecodeCB, then run on its
   *  register or on (HL); v is the operand. The byte at HL reads back what was there before
   *  the fetch when neither read is of a timer register and HL is not in OAM. */
  method ExecCB(gb: GB) returns (op: byte, c: CbInstr, v: byte)
    requires gb.Valid()
    modifies gb.IO, gb.wram, gb.vram, gb.hram, gb.OAM, gb.bgColorRAM, gb.spriteColorRAM, GbMbc.Repr(gb.mbc)
    modifies gb`IE, gb`lastDIVSync, gb`lastTIMASync, gb`joypadSelectedMode, gb`selectedWRAMBank,
             gb`selectedVRAMBank, gb`currentBackgroundCRAMIndex, gb`currentSpriteCRAMIndex
    modifies gb`ppuMode, gb`cyclesSinceLastMode, gb`lockVRAM, gb`lockOAM, gb`lockPalettes, gb`ppuEnabled,
             gb`skipFrame, gb`cyclesSinceLastFrame
    modifies gb`scheduled_dmaSource, gb`scheduled_dmaTimer, gb`scheduleDMA
    modifies gb`clock, gb`mCyclesSinceDMA, gb`dmaSource, gb`doingDMA, gb.GPR, gb`PC
    ensures gb.Valid() && gb.PC == Advance(old(gb.PC), 1)
    ensures c == DecodeCB(op) && gb.clock == old(gb.clock) + 4 + CbCycles(c)
    ensures CbOk(c) && (c.o != OpHL ==> gb.GPR[..] == CbRegisterStep(c, old(gb.GPR[..])))
    ensures !TimerAddress(old(gb.PC)) ==> op == old(Peek(gb, gb.PC))
    ensures c.o == OpHL ==> gb.GPR[..] == old(gb.GPR[..])[1 := CbResult(c, v, old(gb.GPR[1])).f]
    ensures c.o == OpHL && !TimerAddress(old(gb.PC)) && GbCpu.PlainRead(Reg16Of(old(gb.GPR[..]), HL)) ==>
              v == old(Peek(gb, Reg16Of(gb.GPR[..], HL)))
    ensures c.o == OpHL && !c.TestBit? && PlainRam(AreaOf(Reg16Of(old(gb.GPR[..]), HL))) ==>
              RamStored(gb, old(gb.wram[..]), old(gb.hram[..]), Reg16Of(old(gb.GPR[..]), HL),
                        CbResult(c, v, old(gb.GPR[1])).value)
  {
    op := GbCpu.FetchKeeping(gb, gb.GetReg16(HL));
    c := DecodeCB(op);
    DecodeCBOk(op);
    v := RunCB(gb, c);
  }

  /** The switch of prefixCB on a decoded instruction; v is the operand, a register or the
   *  byte at HL. */
  method RunCB(gb: GB, c: CbInstr) returns (v: byte)
    requires gb.Valid() && CbOk(c)
    modifies gb.IO, gb.wram, gb.vram, gb.hram, gb.OAM, gb.bgColorRAM, gb.spriteColorRAM, GbMbc.Repr(gb.mbc)
    modifies gb`IE, gb`lastDIVSync, gb`lastTIMASync, gb`joypadSelectedMode, gb`selectedWRAMBank,
             gb`selectedVRAMBank, gb`currentBackgroundCRAMIndex, gb`currentSpriteCRAMIndex
    modifies gb`ppuMode, gb`cyclesSinceLastMode, gb`lockVRAM, gb`lockOAM, gb`lockPalettes, gb`ppuEnabled,
             gb`skipFrame, gb`cyclesSinceLastFrame
    modifies gb`scheduled_dmaSource, gb`scheduled_dmaTimer, gb`scheduleDMA
    modifies gb`clock, gb`mCyclesSinceDMA, gb`dmaSource, gb`doingDMA, gb.GPR
    ensures gb.Valid() && gb.clock == old(gb.clock) + CbCycles(c) && gb.PC == old(gb.PC)
    ensures c.o != OpHL ==> gb.GPR[..] == CbRegisterStep(c, old(gb.GPR[..])) && v == Reg(old(gb.GPR[..]), c.o)
    ensures c.o == OpHL ==> gb.GPR[..] == old(gb.GPR[..])[1 := CbResult(c, v, old(gb.GPR[1])).f]
    ensures c.o == OpHL && !TimerAddress(Reg16Of(old(gb.GPR[..]), HL)) ==>
              v == old(Peek(gb, Reg16Of(gb.GPR[..], HL)))
    ensures c.o == OpHL && !c.TestBit? && PlainRam(AreaOf(Reg16Of(old(gb.GPR[..]), HL))) ==>
              RamStored(gb, old(gb.wram[..]), old(gb.hram[..]), Reg16Of(old(gb.GPR[..]), HL),
                        CbResult(c, v, old(gb.GPR[1])).value)
  {
    if c.o != OpHL {
      v := Reg(gb.GPR[..], c.o);
      SetRegisters(gb, CbRegisterStep(c, gb.GPR[..]));
    } else {
      v := CbOnHL(gb, c);
    }
  }

  // ---------------------------------------------------------------------------------------
  // PUSH and POP

  /** The register file after POP rr has read w: SP moved up by two, then w stored in rr;
   *  for AF the low nibble of F is cleared. */
  function Popped(g: seq<byte>, rr: Reg16, w: word): (h: seq<byte>)
    requires |g| == 10 && rr != SP
    ensures |h| == 10
  {
    var h := WithReg16(WithReg16(g, SP, Reg16Of(g, SP) + 2), rr, w);
    if rr == AF then h[1 := h[1] & 0xF0] else h
  }

  /** PUSH_R16: an internal M-cycle, then push16 of the pair. */
  method PushPair(gb: GB, rr: Reg16) returns (ghost top: word)
    requires gb.Valid() && rr != SP
    modifies gb.IO, gb.wram, gb.vram, gb.hram, gb.OAM, gb.bgColorRAM, gb.spriteColorRAM, GbMbc.Repr(gb.mbc)
    modifies gb`IE, gb`lastDIVSync, gb`lastTIMASync, gb`joypadSelectedMode, gb`selectedWRAMBank,
             gb`selectedVRAMBank, gb`currentBackgroundCRAMIndex, gb`currentSpriteCRAMIndex
    modifies gb`ppuMode, gb`cyclesSinceLastMode, gb`lockVRAM, gb`lockOAM, gb`lockPalettes, gb`ppuEnabled,
             gb`skipFrame, gb`cyclesSinceLastFrame
    modifies gb`scheduled_dmaSource, gb`scheduled_dmaTimer, gb`scheduleDMA
    modifies gb`clock, gb`mCyclesSinceDMA, gb`dmaSource, gb`doingDMA, gb.GPR
    ensures gb.Valid() && gb.clock == old(gb.clock) + 12
    ensures top == Reg16Of(old(gb.GPR[..]), SP) - 2
    ensures gb.GPR[..] == WithReg16(old(gb.GPR[..]), SP, top)
    ensures GbCpu.StackSlot(top) ==> GbCpu.StackWord(gb, top) == Reg16Of(old(gb.GPR[..]), rr)
  {
    var v := gb.GetReg16(rr);
    GbDma.CyclesSync4Valid(gb);
    top := GbCpu.Push16(gb, v);
  }

  /** POP_R16, and opcode 0xF1 with its mask of F. */
  method PopPair(gb: GB, rr: Reg16) returns (w: word, ghost sp: word)
    requires gb.Valid() && rr != SP
    modifies gb.GPR, gb.IO, gb`lastDIVSync, gb`lastTIMASync
    modifies gb`clock, gb.OAM, gb`mCyclesSinceDMA, gb`dmaSource, gb`doingDMA, gb`scheduleDMA, gb`scheduled_dmaTimer
    ensures gb.Valid() && gb.clock == old(gb.clock) + 8
    ensures sp == Reg16Of(old(gb.GPR[..]), SP)
    ensures gb.GPR[..] == Popped(old(gb.GPR[..]), rr, w)
    ensures GbCpu.StackSlot(sp) ==> w == old(GbCpu.StackWord(gb, sp))
  {
    var g := gb.GPR[..];
    w, sp := GbCpu.Pop16(gb);
    SetRegisters(gb, Popped(g, rr, w));
  }

  /** After POP AF the low four bits of F are zero, and A is the high byte popped. */
  lemma PopAFMasksFlags(g: seq<byte>, w: word)
    requires |g| == 10
    ensures Popped(g, AF, w)[1] & 0x0F == 0 && Popped(g, AF, w)[0] == Hi(w)
  {
    Reg16RoundTrip(WithReg16(g, SP, Reg16Of(g, SP) + 2), AF, w);
  }

  /** Popping a pair's own value back leaves it as it was (for AF, as long as the low nibble
   *  of F was already clear); only SP differs. */
  lemma PopOwnValue(g: seq<byte>, rr: Reg16)
    requires |g| == 10 && rr != SP && (rr == AF ==> g[1] & 0x0F == 0)
    ensures Popped(g, rr, Reg16Of(g, rr)) == WithReg16(g, SP, Reg16Of(g, SP) + 2)
  {
    var moved := WithReg16(g, SP, Reg16Of(g, SP) + 2);
    Reg16RoundTrip(g, SP, Reg16Of(g, SP) + 2);
    assert moved[PairIndex(rr)] == g[PairIndex(rr)] && moved[PairIndex(rr) + 1] == g[PairIndex(rr) + 1];
    Reg16WriteBack(moved, rr);
    if rr == AF {
      LowNibbleClear(g[1]);
    }
  }

  lemma LowNibbleClear(f: byte)
    requires f & 0x0F == 0
    ensures f & 0xF0 == f
  {
  }

  // ---------------------------------------------------------------------------------------
  // Timing and operand lengths

  /** The operand bytes an instruction fetches after its opcode (for PREFIX CB, the second
   *  opcode byte; for STOP, the byte it drops). */
  function OperandBytes(i: Instr): (n: nat)
    ensures n <= 2
  {
    match i
    case Load8Imm(_) => 1
    case AluImm(_) => 1
    case Load16Imm(_) => 2
    case StoreSP => 2
    case Stop => 1
    case JumpRelative => 1
    case JumpRelativeIf(_) => 1
    case Jump => 2
    case JumpIf(_) => 2
    case Call => 2
    case CallIf(_) => 2
    case PrefixCB => 1
    case StoreHigh => 1
    case LoadHigh => 1
    case StoreAbs => 2
    case LoadAbs => 2
    case AddSP => 1
    case LoadHLSP => 1
    case _ => 0
  }

  /** PC moved past n operand bytes. */
  function Advance(pc: word, n: nat): (r: word)
    requires n <= 2
    ensures n == 0 ==> r == pc
    ensures n == 1 ==> r == pc + 1
    ensures n == 2 ==> r == pc + 2
  {
    if n == 0 then pc else if n == 1 then pc + 1 else pc + 2
  }

  /** The clock cycles an instruction takes after its opcode fetch: F decides the conditional
   *  branches, c is the decoded second byte of a CB instruction, and cgb says whether STOP
   *  runs a speed switch. */
  function Cycles(i: Instr, F: byte, c: CbInstr, cgb: bool): nat
  {
    match i
    case Load8(d, s) => if d == OpHL || s == OpHL then 4 else 0
    case Load8Imm(o) => if o == OpHL then 8 else 4
    case Inc8(o) => if o == OpHL then 8 else 0
    case Dec8(o) => if o == OpHL then 8 else 0
    case Alu(_, s) => if s == OpHL then 4 else 0
    case AluImm(_) => 4
    case Load16Imm(_) => 8
    case Inc16(_) => 4
    case Dec16(_) => 4
    case AddHL(_) => 4
    case StoreA(_) => 4
    case LoadA(_) => 4
    case StoreSP => 16
    case Stop => if cgb then 4 + 4 * 2050 else 4
    case JumpRelative => 8
    case JumpRelativeIf(cond) => if GbCpu.ConditionHolds(F, cond) then 8 else 4
    case Jump => 12
    case JumpIf(cond) => if GbCpu.ConditionHolds(F, cond) then 12 else 8
    case Call => 20
    case CallIf(cond) => if GbCpu.ConditionHolds(F, cond) then 20 else 8
    case Return => 12
    case ReturnIf(cond) => if GbCpu.ConditionHolds(F, cond) then 16 else 4
    case ReturnEnable => 12
    case Restart(_) => 12
    case Push(_) => 12
    case Pop(_) => 8
    case PrefixCB => 4 + CbCycles(c)
    case StoreHigh => 8
    case LoadHigh => 8
    case StoreHighC => 4
    case LoadHighC => 4
    case StoreAbs => 12
    case LoadAbs => 12
    case AddSP => 12
    case LoadHLSP => 8
    case LoadSPHL => 4
    case _ => 0
  }

  /** The instructions, opcode fetch included, take one to six M-cycles (STOP's speed switch
   *  on CGB aside), and their bus accesses cover the operand fetches. */
  lemma CyclesInMachineCycles(i: Instr, F: byte, c: CbInstr, cgb: bool)
    requires !i.Stop? || !cgb
    ensures Cycles(i, F, c, cgb) % 4 == 0 && 4 <= 4 + Cycles(i, F, c, cgb) <= 24
    ensures !i.Halt? ==> 4 * OperandBytes(i) <= Cycles(i, F, c, cgb)
  {
  }

  /** The register forms fetch no operand, and their cycles are their internal M-cycles. */
  lemma RegisterFormCycles(i: Instr, F: byte, c: CbInstr, cgb: bool)
    requires RegisterForm(i)
    ensures OperandBytes(i) == 0 && Cycles(i, F, c, cgb) == ExtraCycles(i)
  {
  }

  /** PREFIX CB takes its second fetch and the CB instruction's own cycles. */
  lemma PrefixCycles(F: byte, c: CbInstr, cgb: bool)
    ensures Cycles(PrefixCB, F, c, cgb) == 4 + CbCycles(c)
  {
  }

  // ---------------------------------------------------------------------------------------
  // The memory-form instructions

  /** Loads, stores and arithmetic that go through the bus, PUSH and POP. */
  predicate MemoryForm(i: Instr)
  {
    ByteForm(i) || WordForm(i) || HighForm(i) || AbsoluteForm(i)
  }

  /** The 8-bit loads and arithmetic on (HL) or an immediate operand. */
  predicate ByteForm(i: Instr)
  {
    ByteLoadForm(i) || ByteArithmeticForm(i)
  }

  predicate ByteLoadForm(i: Instr)
  {
    match i
    case Load8(d, s) => d == OpHL || s == OpHL
    case Load8Imm(_) => true
    case _ => false
  }

  predicate ByteArithmeticForm(i: Instr)
  {
    match i
    case Inc8(o) => o == OpHL
    case Dec8(o) => o == OpHL
    case Alu(_, s) => s == OpHL
    case AluImm(_) => true
    case _ => false
  }

  /** The 16-bit immediates, the indirect accumulator forms, PUSH and POP. */
  predicate WordForm(i: Instr)
  {
    match i
    case Load16Imm(_) => true
    case StoreA(_) => true
    case LoadA(_) => true
    case StoreSP => true
    case Push(rr) => rr != SP
    case Pop(rr) => rr != SP
    case _ => false
  }

  /** The FF00-page forms. */
  predicate HighForm(i: Instr)
  {
    match i
    case StoreHigh => true
    case LoadHigh => true
    case StoreHighC => true
    case LoadHighC => true
    case _ => false
  }

  /** The absolute and SP-relative forms. */
  predicate AbsoluteForm(i: Instr)
  {
    match i
    case StoreAbs => true
    case LoadAbs => true
    case AddSP => true
    case LoadHLSP => true
    case _ => false
  }

  /** The memory-form cases of dispatch: PC moves past the operands, and the clock advances
   *  by the instruction's cycles. */
  method ExecMemory(gb: GB, i: Instr)
    requires gb.Valid() && MemoryForm(i) && WellFormed(i)
    modifies gb.IO, gb.wram, gb.vram, gb.hram, gb.OAM, gb.bgColorRAM, gb.spriteColorRAM, GbMbc.Repr(gb.mbc)
    modifies gb`IE, gb`lastDIVSync, gb`lastTIMASync, gb`joypadSelectedMode, gb`selectedWRAMBank,
             gb`selectedVRAMBank, gb`currentBackgroundCRAMIndex, gb`currentSpriteCRAMIndex
    modifies gb`ppuMode, gb`cyclesSinceLastMode, gb`lockVRAM, gb`lockOAM, gb`lockPalettes, gb`ppuEnabled,
             gb`skipFrame, gb`cyclesSinceLastFrame
    modifies gb`scheduled_dmaSource, gb`scheduled_dmaTimer, gb`scheduleDMA
    modifies gb`clock, gb`mCyclesSinceDMA, gb`dmaSource, gb`doingDMA, gb.GPR, gb`PC
    ensures gb.Valid() && gb.PC == Advance(old(gb.PC), OperandBytes(i))
    ensures gb.clock == old(gb.clock) + Cycles(i, old(gb.GPR[1]), Shift(ShRlc, OpB), gb.emuMode == EmuCgb)
  {
    if ByteForm(i) {
      ExecByteForm(gb, i);
    } else if WordForm(i) {
      ExecWordForm(gb, i);
    } else if HighForm(i) {
      ExecHighForm(gb, i);
    } else {
      ExecAbsoluteForm(gb, i);
    }
  }

  method ExecByteForm(gb: GB, i: Instr)
    requires gb.Valid() && ByteForm(i) && WellFormed(i)
    modifies gb.IO, gb.wram, gb.vram, gb.hram, gb.OAM, gb.bgColorRAM, gb.spriteColorRAM, GbMbc.Repr(gb.mbc)
    modifies gb`IE, gb`lastDIVSync, gb`lastTIMASync, gb`joypadSelectedMode, gb`selectedWRAMBank,
             gb`selectedVRAMBank, gb`currentBackgroundCRAMIndex, gb`currentSpriteCRAMIndex
    modifies gb`ppuMode, gb`cyclesSinceLastMode, gb`lockVRAM, gb`lockOAM, gb`lockPalettes, gb`ppuEnabled,
             gb`skipFrame, gb`cyclesSinceLastFrame
    modifies gb`scheduled_dmaSource, gb`scheduled_dmaTimer, gb`scheduleDMA
    modifies gb`clock, gb`mCyclesSinceDMA, gb`dmaSource, gb`doingDMA, gb.GPR, gb`PC
    ensures gb.Valid() && gb.PC == Advance(old(gb.PC), OperandBytes(i))
    ensures gb.clock == old(gb.clock) + Cycles(i, old(gb.GPR[1]), Shift(ShRlc, OpB), gb.emuMode == EmuCgb)
  {
    if ByteLoadForm(i) {
      ExecByteLoad(gb, i);
    } else {
      ExecByteArithmetic(gb, i);
    }
  }

  method ExecByteLoad(gb: GB, i: Instr)
    requires gb.Valid() && ByteLoadForm(i) && WellFormed(i)
    modifies gb.IO, gb.wram, gb.vram, gb.hram, gb.OAM, gb.bgColorRAM, gb.spriteColorRAM, GbMbc.Repr(gb.mbc)
    modifies gb`IE, gb`lastDIVSync, gb`lastTIMASync, gb`joypadSelectedMode, gb`selectedWRAMBank,
             gb`selectedVRAMBank, gb`currentBackgroundCRAMIndex, gb`currentSpriteCRAMIndex
    modifies gb`ppuMode, gb`cyclesSinceLastMode, gb`lockVRAM, gb`lockOAM, gb`lockPalettes, gb`ppuEnabled,
             gb`skipFrame, gb`cyclesSinceLastFrame
    modifies gb`scheduled_dmaSource, gb`scheduled_dmaTimer, gb`scheduleDMA
    modifies gb`clock, gb`mCyclesSinceDMA, gb`dmaSource, gb`doingDMA, gb.GPR, gb`PC
    ensures gb.Valid() && gb.PC == Advance(old(gb.PC), OperandBytes(i))
    ensures gb.clock == old(gb.clock) + Cycles(i, old(gb.GPR[1]), Shift(ShRlc, OpB), gb.emuMode == EmuCgb)
  {
    match i
    case Load8(d, s) =>
      var _ := LoadStoreHL(gb, d, s);
    case Load8Imm(o) =>
      LoadImmediateTo(gb, o);
  }

  method ExecByteArithmetic(gb: GB, i: Instr)
    requires gb.Valid() && ByteArithmeticForm(i)
    modifies gb.IO, gb.wram, gb.vram, gb.hram, gb.OAM, gb.bgColorRAM, gb.spriteColorRAM, GbMbc.Repr(gb.mbc)
    modifies gb`IE, gb`lastDIVSync, gb`lastTIMASync, gb`joypadSelectedMode, gb`selectedWRAMBank,
             gb`selectedVRAMBank, gb`currentBackgroundCRAMIndex, gb`currentSpriteCRAMIndex
    modifies gb`ppuMode, gb`cyclesSinceLastMode, gb`lockVRAM, gb`lockOAM, gb`lockPalettes, gb`ppuEnabled,
             gb`skipFrame, gb`cyclesSinceLastFrame
    modifies gb`scheduled_dmaSource, gb`scheduled_dmaTimer, gb`scheduleDMA
    modifies gb`clock, gb`mCyclesSinceDMA, gb`dmaSource, gb`doingDMA, gb.GPR, gb`PC
    ensures gb.Valid() && gb.PC == Advance(old(gb.PC), OperandBytes(i))
    ensures gb.clock == old(gb.clock) + Cycles(i, old(gb.GPR[1]), Shift(ShRlc, OpB), gb.emuMode == EmuCgb)
  {
    match i
    case Inc8(_) =>
      var _, _ := IncDecOnHL(gb, true);
    case Dec8(_) =>
      var _, _ := IncDecOnHL(gb, false);
    case Alu(a, _) =>
      var _ := AluOnHL(gb, a);
    case AluImm(a) =>
      var _ := AluImmediate(gb, a);
  }

  /** LD r, (HL) and LD (HL), r. */
  method LoadStoreHL(gb: GB, d: Operand, s: Operand) returns (b: byte)
    requires gb.Valid() && (d == OpHL || s == OpHL) && (d != OpHL || s != OpHL)
    modifies gb.IO, gb.wram, gb.vram, gb.hram, gb.OAM, gb.bgColorRAM, gb.spriteColorRAM, GbMbc.Repr(gb.mbc)
    modifies gb`IE, gb`lastDIVSync, gb`lastTIMASync, gb`joypadSelectedMode, gb`selectedWRAMBank,
             gb`selectedVRAMBank, gb`currentBackgroundCRAMIndex, gb`currentSpriteCRAMIndex
    modifies gb`ppuMode, gb`cyclesSinceLastMode, gb`lockVRAM, gb`lockOAM, gb`lockPalettes, gb`ppuEnabled,
             gb`skipFrame, gb`cyclesSinceLastFrame
    modifies gb`scheduled_dmaSource, gb`scheduled_dmaTimer, gb`scheduleDMA
    modifies gb`clock, gb`mCyclesSinceDMA, gb`dmaSource, gb`doingDMA, gb.GPR
    ensures gb.Valid() && gb.clock == old(gb.clock) + 4
    ensures s == OpHL ==> gb.GPR[..] == old(gb.GPR[..])[RegIndex(OperandReg(d)) := b]
    ensures s == OpHL && !TimerAddress(Reg16Of(old(gb.GPR[..]), HL)) ==> b == old(Peek(gb, Reg16Of(gb.GPR[..], HL)))
    ensures d == OpHL ==> gb.GPR[..] == old(gb.GPR[..]) && b == Reg(old(gb.GPR[..]), s)
    ensures d == OpHL && PlainRam(AreaOf(Reg16Of(old(gb.GPR[..]), HL))) ==>
              RamStored(gb, old(gb.wram[..]), old(gb.hram[..]), Reg16Of(old(gb.GPR[..]), HL), b)
  {
    if s == OpHL {
      b := LoadFrom(gb, gb.GetReg16(HL), OperandReg(d));
    } else {
      b := Reg(gb.GPR[..], s);
      GbCpu.WriteAddr4C(gb, gb.GetReg16(HL), b);
    }
  }

  /** LD r, d8 and LD (HL), d8. */
  method LoadImmediateTo(gb: GB, o: Operand)
    requires gb.Valid()
    modifies gb.IO, gb.wram, gb.vram, gb.hram, gb.OAM, gb.bgColorRAM, gb.spriteColorRAM, GbMbc.Repr(gb.mbc)
    modifies gb`IE, gb`lastDIVSync, gb`lastTIMASync, gb`joypadSelectedMode, gb`selectedWRAMBank,
             gb`selectedVRAMBank, gb`currentBackgroundCRAMIndex, gb`currentSpriteCRAMIndex
    modifies gb`ppuMode, gb`cyclesSinceLastMode, gb`lockVRAM, gb`lockOAM, gb`lockPalettes, gb`ppuEnabled,
             gb`skipFrame, gb`cyclesSinceLastFrame
    modifies gb`scheduled_dmaSource, gb`scheduled_dmaTimer, gb`scheduleDMA
    modifies gb`clock, gb`mCyclesSinceDMA, gb`dmaSource, gb`doingDMA, gb.GPR, gb`PC
    ensures gb.Valid() && gb.PC == Advance(old(gb.PC), 1)
    ensures gb.clock == old(gb.clock) + (if o == OpHL then 8 else 4)
  {
    if o == OpHL {
      var _ := StoreImmediate(gb);
    } else {
      var _ := LoadImmediate(gb, OperandReg(o));
    }
  }

  method ExecWordForm(gb: GB, i: Instr)
    requires gb.Valid() && WordForm(i)
    modifies gb.IO, gb.wram, gb.vram, gb.hram, gb.OAM, gb.bgColorRAM, gb.spriteColorRAM, GbMbc.Repr(gb.mbc)
    modifies gb`IE, gb`lastDIVSync, gb`lastTIMASync, gb`joypadSelectedMode, gb`selectedWRAMBank,
             gb`selectedVRAMBank, gb`currentBackgroundCRAMIndex, gb`currentSpriteCRAMIndex
    modifies gb`ppuMode, gb`cyclesSinceLastMode, gb`lockVRAM, gb`lockOAM, gb`lockPalettes, gb`ppuEnabled,
             gb`skipFrame, gb`cyclesSinceLastFrame
    modifies gb`scheduled_dmaSource, gb`scheduled_dmaTimer, gb`scheduleDMA
    modifies gb`clock, gb`mCyclesSinceDMA, gb`dmaSource, gb`doingDMA, gb.GPR, gb`PC
    ensures gb.Valid() && gb.PC == Advance(old(gb.PC), OperandBytes(i))
    ensures gb.clock == old(gb.clock) + Cycles(i, old(gb.GPR[1]), Shift(ShRlc, OpB), gb.emuMode == EmuCgb)
  {
    match i
    case Load16Imm(rr) =>
      var _ := LoadImmediate16(gb, rr);
    case StoreA(via) =>
      StoreIndirect(gb, via);
    case LoadA(via) =>
      var _ := LoadIndirect(gb, via);
    case StoreSP =>
      var _ := StoreSP(gb);
    case Push(rr) =>
      var _ := PushPair(gb, rr);
    case Pop(rr) =>
      var _, _ := PopPair(gb, rr);
  }

  method ExecHighForm(gb: GB, i: Instr)
    requires gb.Valid() && HighForm(i)
    modifies gb.IO, gb.wram, gb.vram, gb.hram, gb.OAM, gb.bgColorRAM, gb.spriteColorRAM, GbMbc.Repr(gb.mbc)
    modifies gb`IE, gb`lastDIVSync, gb`lastTIMASync, gb`joypadSelectedMode, gb`selectedWRAMBank,
             gb`selectedVRAMBank, gb`currentBackgroundCRAMIndex, gb`currentSpriteCRAMIndex
    modifies gb`ppuMode, gb`cyclesSinceLastMode, gb`lockVRAM, gb`lockOAM, gb`lockPalettes, gb`ppuEnabled,
             gb`skipFrame, gb`cyclesSinceLastFrame
    modifies gb`scheduled_dmaSource, gb`scheduled_dmaTimer, gb`scheduleDMA
    modifies gb`clock, gb`mCyclesSinceDMA, gb`dmaSource, gb`doingDMA, gb.GPR, gb`PC
    ensures gb.Valid() && gb.PC == Advance(old(gb.PC), OperandBytes(i))
    ensures gb.clock == old(gb.clock) + Cycles(i, old(gb.GPR[1]), Shift(ShRlc, OpB), gb.emuMode == EmuCgb)
  {
    match i
    case StoreHigh =>
      var _ := StoreHigh(gb);
    case LoadHigh =>
      var _, _ := LoadHigh(gb);
    case StoreHighC =>
      GbCpu.WriteAddr4C(gb, HighAddress(gb.GPR[3]), gb.GPR[0]);
    case LoadHighC =>
      var _ := LoadFrom(gb, HighAddress(gb.GPR[3]), RegA);
  }

  method ExecAbsoluteForm(gb: GB, i: Instr)
    requires gb.Valid() && AbsoluteForm(i)
    modifies gb.IO, gb.wram, gb.vram, gb.hram, gb.OAM, gb.bgColorRAM, gb.spriteColorRAM, GbMbc.Repr(gb.mbc)
    modifies gb`IE, gb`lastDIVSync, gb`lastTIMASync, gb`joypadSelectedMode, gb`selectedWRAMBank,
             gb`selectedVRAMBank, gb`currentBackgroundCRAMIndex, gb`currentSpriteCRAMIndex
    modifies gb`ppuMode, gb`cyclesSinceLastMode, gb`lockVRAM, gb`lockOAM, gb`lockPalettes, gb`ppuEnabled,
             gb`skipFrame, gb`cyclesSinceLastFrame
    modifies gb`scheduled_dmaSource, gb`scheduled_dmaTimer, gb`scheduleDMA
    modifies gb`clock, gb`mCyclesSinceDMA, gb`dmaSource, gb`doingDMA, gb.GPR, gb`PC
    ensures gb.Valid() && gb.PC == Advance(old(gb.PC), OperandBytes(i))
    ensures gb.clock == old(gb.clock) + Cycles(i, old(gb.GPR[1]), Shift(ShRlc, OpB), gb.emuMode == EmuCgb)
  {
    match i
    case StoreAbs =>
      var _ := StoreAbsolute(gb);
    case LoadAbs =>
      var _, _ := LoadAbsolute(gb);
    case AddSP =>
      var _ := AddToSP(gb);
    case LoadHLSP =>
      var _ := LoadSPOffset(gb);
  }

  // ---------------------------------------------------------------------------------------
  // Jumps, calls and returns

  /** The control-flow instructions. */
  predicate ControlForm(i: Instr)
  {
    JumpForm(i) || CallForm(i) || ReturnForm(i)
  }

  predicate JumpForm(i: Instr)
  {
    RelativeJumpForm(i) || AbsoluteJumpForm(i)
  }

  predicate RelativeJumpForm(i: Instr)
  {
    match i
    case JumpRelative => true
    case JumpRelativeIf(_) => true
    case _ => false
  }

  predicate AbsoluteJumpForm(i: Instr)
  {
    match i
    case Jump => true
    case JumpIf(_) => true
    case JumpHL => true
    case _ => false
  }

  predicate CallForm(i: Instr)
  {
    match i
    case Call => true
    case CallIf(_) => true
    case Restart(_) => true
    case _ => false
  }

  predicate ReturnForm(i: Instr)
  {
    match i
    case Return => true
    case ReturnIf(_) => true
    case ReturnEnable => true
    case _ => false
  }

  /** The control-flow forms with a 16-bit operand: JP a16, JP cc, a16, CALL a16 and
   *  CALL cc, a16. */
  predicate OperandForm(i: Instr)
  {
    match i
    case Jump => true
    case JumpIf(_) => true
    case Call => true
    case CallIf(_) => true
    case _ => false
  }

  /** Whether a control-flow instruction transfers control: the unconditional forms always,
   *  the conditional ones when their condition holds on F. */
  predicate Taken(i: Instr, F: byte)
  {
    (i.JumpRelativeIf? || i.JumpIf? || i.CallIf? || i.ReturnIf?) ==> GbCpu.ConditionHolds(F, i.cond)
  }

  /** The PC after a jump, from the PC and HL before it and the operand it fetched: the
   *  signed offset of JR or the 16-bit target of JP. */
  function JumpPC(i: Instr, F: byte, pc: word, hl: word, offset: byte, target: word): word
    requires JumpForm(i)
  {
    if i.JumpHL? then hl
    else if RelativeJumpForm(i) then
      (if Taken(i, F) then AddSigned(pc + 1, offset) else pc + 1)
    else if Taken(i, F) then target
    else pc + 2
  }

  /** The register file after a control-flow instruction: a call made moves SP down by two,
   *  a return made moves it up by two, and nothing else changes. */
  function ControlRegs(i: Instr, F: byte, regs: seq<byte>): (r: seq<byte>)
    requires |regs| == 10
    ensures |r| == 10
  {
    if Taken(i, F) && (CallForm(i) || ReturnForm(i)) then
      WithReg16(regs, SP, if CallForm(i) then Reg16Of(regs, SP) - 2 else Reg16Of(regs, SP) + 2)
    else regs
  }

  /** The jump, call and return forms do not overlap. */
  lemma ControlFormsDisjoint(i: Instr)
    ensures JumpForm(i) ==> !CallForm(i) && !ReturnForm(i)
    ensures CallForm(i) ==> !ReturnForm(i)
  {
  }

  /** A jump leaves the register file as it was. */
  lemma JumpRegs(i: Instr, F: byte, regs: seq<byte>)
    requires |regs| == 10 && JumpForm(i)
    ensures ControlRegs(i, F, regs) == regs
  {
    assert !CallForm(i) && !ReturnForm(i);
  }

  /** For a return, the register file moves SP up by two exactly when the return is made. */
  lemma ReturnRegs(i: Instr, F: byte, regs: seq<byte>)
    requires |regs| == 10 && ReturnForm(i)
    ensures ControlRegs(i, F, regs) == if Taken(i, F) then WithReg16(regs, SP, Reg16Of(regs, SP) + 2) else regs
  {
    assert !CallForm(i);
  }

  /** A call made and then a return made give back the register file the call started from. */
  lemma {:induction false} CallThenReturn(call: Instr, ret: Instr, F: byte, F': byte, regs: seq<byte>)
    requires |regs| == 10 && CallForm(call) && Taken(call, F) && ReturnForm(ret) && Taken(ret, F')
    ensures ControlRegs(ret, F', ControlRegs(call, F, regs)) == regs
  {
    var moved := WithReg16(regs, SP, Reg16Of(regs, SP) - 2);
    Reg16DownUp(regs, moved, SP, Reg16Of(regs, SP), Reg16Of(moved, SP));
  }

  /** The control-flow cases of dispatch. Conditions are evaluated on F before the
   *  instruction; offset and target are the operand a jump or call fetched, sp the stack
   *  pointer before the instruction. */
  method ExecControl(gb: GB, i: Instr) returns (ghost offset: byte, ghost target: word, ghost sp: word)
    requires gb.Valid() && ControlForm(i) && WellFormed(i)
    modifies gb.IO, gb.wram, gb.vram, gb.hram, gb.OAM, gb.bgColorRAM, gb.spriteColorRAM, GbMbc.Repr(gb.mbc)
    modifies gb`IE, gb`lastDIVSync, gb`lastTIMASync, gb`joypadSelectedMode, gb`selectedWRAMBank,
             gb`selectedVRAMBank, gb`currentBackgroundCRAMIndex, gb`currentSpriteCRAMIndex
    modifies gb`ppuMode, gb`cyclesSinceLastMode, gb`lockVRAM, gb`lockOAM, gb`lockPalettes, gb`ppuEnabled,
             gb`skipFrame, gb`cyclesSinceLastFrame
    modifies gb`scheduled_dmaSource, gb`scheduled_dmaTimer, gb`scheduleDMA
    modifies gb`clock, gb`mCyclesSinceDMA, gb`dmaSource, gb`doingDMA, gb.GPR, gb`PC, gb`scheduleInterruptEnable
    ensures gb.Valid()
    ensures gb.clock == old(gb.clock) + Cycles(i, old(gb.GPR[1]), Shift(ShRlc, OpB), gb.emuMode == EmuCgb)
    ensures gb.scheduleInterruptEnable == (old(gb.scheduleInterruptEnable) || i == ReturnEnable)
    ensures sp == Reg16Of(old(gb.GPR[..]), SP)
    ensures JumpForm(i) ==> gb.PC == JumpPC(i, old(gb.GPR[1]), old(gb.PC), Reg16Of(old(gb.GPR[..]), HL), offset, target)
    ensures CallForm(i) ==> gb.PC == CallPC(i, old(gb.GPR[1]), old(gb.PC), target)
    ensures ReturnForm(i) && !Taken(i, old(gb.GPR[1])) ==> gb.PC == old(gb.PC)
    ensures ReturnForm(i) && Taken(i, old(gb.GPR[1])) && GbCpu.StackSlot(sp) ==> gb.PC == old(GbCpu.StackWord(gb, sp))
    ensures gb.GPR[..] == ControlRegs(i, old(gb.GPR[1]), old(gb.GPR[..]))
    ensures RelativeJumpForm(i) && !TimerAddress(old(gb.PC)) ==> offset == old(Peek(gb, gb.PC))
    ensures OperandForm(i) && GbCpu.PlainOperands(old(gb.PC)) ==> target == Join(old(Peek(gb, gb.PC + 1)), old(Peek(gb, gb.PC)))
    ensures i.JumpHL? ==> target == Reg16Of(old(gb.GPR[..]), HL)
    ensures i.Restart? ==> target == GbCpu.RestartVector(i.k)
  {
    ControlFormsDisjoint(i);
    sp := gb.GetReg16(SP);
    offset, target := 0, 0;
    if JumpForm(i) {
      JumpRegs(i, gb.GPR[1], gb.GPR[..]);
      offset, target := ExecJump(gb, i);
    } else if CallForm(i) {
      ghost var top;
      target, top := ExecCall(gb, i);
    } else {
      var s := ExecReturn(gb, i);
      assert s == sp;
    }
  }

  method ExecJump(gb: GB, i: Instr) returns (ghost offset: byte, ghost target: word)
    requires gb.Valid() && JumpForm(i)
    modifies gb.IO, gb`lastDIVSync, gb`lastTIMASync, gb`PC
    modifies gb`clock, gb.OAM, gb`mCyclesSinceDMA, gb`dmaSource, gb`doingDMA, gb`scheduleDMA, gb`scheduled_dmaTimer
    ensures gb.Valid()
    ensures gb.clock == old(gb.clock) + Cycles(i, old(gb.GPR[1]), Shift(ShRlc, OpB), gb.emuMode == EmuCgb)
    ensures gb.PC == JumpPC(i, old(gb.GPR[1]), old(gb.PC), Reg16Of(old(gb.GPR[..]), HL), offset, target)
    ensures RelativeJumpForm(i) && !TimerAddress(old(gb.PC)) ==> offset == old(Peek(gb, gb.PC))
    ensures !i.JumpHL? && !RelativeJumpForm(i) && !TimerAddress(old(gb.PC)) ==> Lo(target) == old(Peek(gb, gb.PC))
    ensures OperandForm(i) && GbCpu.PlainOperands(old(gb.PC)) ==> target == Join(old(Peek(gb, gb.PC + 1)), old(Peek(gb, gb.PC)))
    ensures i.JumpHL? ==> target == Reg16Of(old(gb.GPR[..]), HL)
  {
    offset, target := 0, 0;
    if RelativeJumpForm(i) {
      offset := ExecRelativeJump(gb, i);
    } else {
      target := ExecAbsoluteJump(gb, i);
    }
  }

  /** JR e8 and JR cc, e8. */
  method ExecRelativeJump(gb: GB, i: Instr) returns (ghost offset: byte)
    requires gb.Valid() && RelativeJumpForm(i)
    modifies gb.IO, gb`lastDIVSync, gb`lastTIMASync, gb`PC
    modifies gb`clock, gb.OAM, gb`mCyclesSinceDMA, gb`dmaSource, gb`doingDMA, gb`scheduleDMA, gb`scheduled_dmaTimer
    ensures gb.Valid()
    ensures gb.clock == old(gb.clock) + Cycles(i, old(gb.GPR[1]), Shift(ShRlc, OpB), gb.emuMode == EmuCgb)
    ensures gb.PC == if Taken(i, old(gb.GPR[1])) then AddSigned(old(gb.PC) + 1, offset) else old(gb.PC) + 1
    ensures !TimerAddress(old(gb.PC)) ==> offset == old(Peek(gb, gb.PC))
  {
    match i
    case JumpRelative =>
      offset := GbCpu.JumpRelativeTaken(gb);
    case JumpRelativeIf(c) =>
      offset := GbCpu.JumpRelativeCondition(gb, GbCpu.ConditionHolds(gb.GPR[1], c));
  }

  /** JP a16, JP cc, a16 and JP (HL). */
  method ExecAbsoluteJump(gb: GB, i: Instr) returns (ghost target: word)
    requires gb.Valid() && AbsoluteJumpForm(i)
    modifies gb.IO, gb`lastDIVSync, gb`lastTIMASync, gb`PC
    modifies gb`clock, gb.OAM, gb`mCyclesSinceDMA, gb`dmaSource, gb`doingDMA, gb`scheduleDMA, gb`scheduled_dmaTimer
    ensures gb.Valid()
    ensures gb.clock == old(gb.clock) + Cycles(i, old(gb.GPR[1]), Shift(ShRlc, OpB), gb.emuMode == EmuCgb)
    ensures gb.PC == JumpPC(i, old(gb.GPR[1]), old(gb.PC), Reg16Of(old(gb.GPR[..]), HL), 0, target)
    ensures !i.JumpHL? && !TimerAddress(old(gb.PC)) ==> Lo(target) == old(Peek(gb, gb.PC))
    ensures !i.JumpHL? && GbCpu.PlainOperands(old(gb.PC)) ==> target == Join(old(Peek(gb, gb.PC + 1)), old(Peek(gb, gb.PC)))
    ensures i.JumpHL? ==> target == Reg16Of(old(gb.GPR[..]), HL)
  {
    match i
    case Jump =>
      target := GbCpu.JumpTaken(gb);
    case JumpIf(c) =>
      target := GbCpu.JumpCondition(gb, GbCpu.ConditionHolds(gb.GPR[1], c));
    case JumpHL =>
      var hl := gb.GetReg16(HL);
      target := hl;
      GbCpu.SetPCValid(gb, hl);
  }

  /** The PC after a call: the fetched target or the restart vector when the call is made,
   *  the instruction after the operand otherwise. */
  function CallPC(i: Instr, F: byte, pc: word, target: word): word
    requires CallForm(i) && WellFormed(i)
  {
    if !Taken(i, F) then pc + 2
    else if i.Restart? then GbCpu.RestartVector(i.k)
    else target
  }

  /** The return address a call pushes: RST has no operand, CALL a 16-bit one. */
  function ReturnAddress(i: Instr, pc: word): word
  {
    if i.Restart? then pc else pc + 2
  }

  method ExecCall(gb: GB, i: Instr) returns (ghost target: word, ghost top: word)
    requires gb.Valid() && CallForm(i) && WellFormed(i)
    modifies gb.IO, gb.wram, gb.vram, gb.hram, gb.OAM, gb.bgColorRAM, gb.spriteColorRAM, GbMbc.Repr(gb.mbc)
    modifies gb`IE, gb`lastDIVSync, gb`lastTIMASync, gb`joypadSelectedMode, gb`selectedWRAMBank,
             gb`selectedVRAMBank, gb`currentBackgroundCRAMIndex, gb`currentSpriteCRAMIndex
    modifies gb`ppuMode, gb`cyclesSinceLastMode, gb`lockVRAM, gb`lockOAM, gb`lockPalettes, gb`ppuEnabled,
             gb`skipFrame, gb`cyclesSinceLastFrame
    modifies gb`scheduled_dmaSource, gb`scheduled_dmaTimer, gb`scheduleDMA
    modifies gb`clock, gb`mCyclesSinceDMA, gb`dmaSource, gb`doingDMA, gb.GPR, gb`PC
    ensures gb.Valid()
    ensures gb.clock == old(gb.clock) + Cycles(i, old(gb.GPR[1]), Shift(ShRlc, OpB), gb.emuMode == EmuCgb)
    ensures gb.PC == CallPC(i, old(gb.GPR[1]), old(gb.PC), target)
    ensures Taken(i, old(gb.GPR[1])) ==> top == Reg16Of(old(gb.GPR[..]), SP) - 2
    ensures Taken(i, old(gb.GPR[1])) && GbCpu.StackSlot(top) ==> GbCpu.StackWord(gb, top) == ReturnAddress(i, old(gb.PC))
    ensures gb.GPR[..] == ControlRegs(i, old(gb.GPR[1]), old(gb.GPR[..]))
    ensures !i.Restart? && GbCpu.PlainOperands(old(gb.PC)) ==> target == Join(old(Peek(gb, gb.PC + 1)), old(Peek(gb, gb.PC)))
    ensures i.Restart? ==> target == GbCpu.RestartVector(i.k)
  {
    match i
    case Call =>
      target, top := CallImmediate(gb);
    case CallIf(c) =>
      target, top := CallImmediateIf(gb, GbCpu.ConditionHolds(gb.GPR[1], c));
    case Restart(k) =>
      target := GbCpu.RestartVector(k);
      top := GbCpu.Call(gb, GbCpu.RestartVector(k));
  }

  /** CALL a16: the operand fetched, then call. */
  method CallImmediate(gb: GB) returns (target: word, ghost top: word)
    requires gb.Valid()
    modifies gb.IO, gb.wram, gb.vram, gb.hram, gb.OAM, gb.bgColorRAM, gb.spriteColorRAM, GbMbc.Repr(gb.mbc)
    modifies gb`IE, gb`lastDIVSync, gb`lastTIMASync, gb`joypadSelectedMode, gb`selectedWRAMBank,
             gb`selectedVRAMBank, gb`currentBackgroundCRAMIndex, gb`currentSpriteCRAMIndex
    modifies gb`ppuMode, gb`cyclesSinceLastMode, gb`lockVRAM, gb`lockOAM, gb`lockPalettes, gb`ppuEnabled,
             gb`skipFrame, gb`cyclesSinceLastFrame
    modifies gb`scheduled_dmaSource, gb`scheduled_dmaTimer, gb`scheduleDMA
    modifies gb`clock, gb`mCyclesSinceDMA, gb`dmaSource, gb`doingDMA, gb.GPR, gb`PC
    ensures gb.Valid() && gb.clock == old(gb.clock) + 20 && gb.PC == target
    ensures top == Reg16Of(old(gb.GPR[..]), SP) - 2 && gb.GPR[..] == WithReg16(old(gb.GPR[..]), SP, top)
    ensures GbCpu.StackSlot(top) ==> GbCpu.StackWord(gb, top) == old(gb.PC) + 2
    ensures GbCpu.PlainOperands(old(gb.PC)) ==> target == Join(old(Peek(gb, gb.PC + 1)), old(Peek(gb, gb.PC)))
  {
    target := GbCpu.Read2Bytes8C(gb);
    top := GbCpu.Call(gb, target);
  }

  /** CALL cc, a16: the operand always fetched, the call made when the condition holds. */
  method CallImmediateIf(gb: GB, isTrue: bool) returns (target: word, ghost top: word)
    requires gb.Valid()
    modifies gb.IO, gb.wram, gb.vram, gb.hram, gb.OAM, gb.bgColorRAM, gb.spriteColorRAM, GbMbc.Repr(gb.mbc)
    modifies gb`IE, gb`lastDIVSync, gb`lastTIMASync, gb`joypadSelectedMode, gb`selectedWRAMBank,
             gb`selectedVRAMBank, gb`currentBackgroundCRAMIndex, gb`currentSpriteCRAMIndex
    modifies gb`ppuMode, gb`cyclesSinceLastMode, gb`lockVRAM, gb`lockOAM, gb`lockPalettes, gb`ppuEnabled,
             gb`skipFrame, gb`cyclesSinceLastFrame
    modifies gb`scheduled_dmaSource, gb`scheduled_dmaTimer, gb`scheduleDMA
    modifies gb`clock, gb`mCyclesSinceDMA, gb`dmaSource, gb`doingDMA, gb.GPR, gb`PC
    ensures gb.Valid() && gb.clock == old(gb.clock) + (if isTrue then 20 else 8)
    ensures !isTrue ==> gb.PC == old(gb.PC) + 2 && gb.GPR[..] == old(gb.GPR[..])
    ensures isTrue ==> gb.PC == target
    ensures isTrue ==> top == Reg16Of(old(gb.GPR[..]), SP) - 2 && gb.GPR[..] == WithReg16(old(gb.GPR[..]), SP, top)
    ensures isTrue && GbCpu.StackSlot(top) ==> GbCpu.StackWord(gb, top) == old(gb.PC) + 2
    ensures GbCpu.PlainOperands(old(gb.PC)) ==> target == Join(old(Peek(gb, gb.PC + 1)), old(Peek(gb, gb.PC)))
  {
    target := GbCpu.Read2Bytes8C(gb);
    top := GbCpu.CallCondition(gb, target, isTrue);
  }

  method ExecReturn(gb: GB, i: Instr) returns (ghost sp: word)
    requires gb.Valid() && ReturnForm(i)
    modifies gb.GPR, gb.IO, gb`lastDIVSync, gb`lastTIMASync, gb`PC, gb`scheduleInterruptEnable
    modifies gb`clock, gb.OAM, gb`mCyclesSinceDMA, gb`dmaSource, gb`doingDMA, gb`scheduleDMA, gb`scheduled_dmaTimer
    ensures gb.Valid()
    ensures gb.clock == old(gb.clock) + Cycles(i, old(gb.GPR[1]), Shift(ShRlc, OpB), gb.emuMode == EmuCgb)
    ensures gb.scheduleInterruptEnable == (old(gb.scheduleInterruptEnable) || i == ReturnEnable)
    ensures sp == Reg16Of(old(gb.GPR[..]), SP)
    ensures !Taken(i, old(gb.GPR[1])) ==> gb.PC == old(gb.PC)
    ensures Taken(i, old(gb.GPR[1])) && GbCpu.StackSlot(sp) ==> gb.PC == old(GbCpu.StackWord(gb, sp))
    ensures gb.GPR[..] == ControlRegs(i, old(gb.GPR[1]), old(gb.GPR[..]))
  {
    if i.ReturnIf? {
      sp := ReturnCondition(gb, i);
    } else {
      sp := ReturnAlways(gb, i);
    }
  }

  /** RET and RETI: the return made unconditionally, RETI scheduling the IME enable first. */
  method ReturnAlways(gb: GB, i: Instr) returns (ghost sp: word)
    requires gb.Valid() && (i == Return || i == ReturnEnable)
    modifies gb.GPR, gb.IO, gb`lastDIVSync, gb`lastTIMASync, gb`PC, gb`scheduleInterruptEnable
    modifies gb`clock, gb.OAM, gb`mCyclesSinceDMA, gb`dmaSource, gb`doingDMA, gb`scheduleDMA, gb`scheduled_dmaTimer
    ensures gb.Valid()
    ensures gb.clock == old(gb.clock) + Cycles(i, old(gb.GPR[1]), Shift(ShRlc, OpB), gb.emuMode == EmuCgb)
    ensures gb.scheduleInterruptEnable == (old(gb.scheduleInterruptEnable) || i == ReturnEnable)
    ensures sp == Reg16Of(old(gb.GPR[..]), SP)
    ensures !Taken(i, old(gb.GPR[1])) ==> gb.PC == old(gb.PC)
    ensures Taken(i, old(gb.GPR[1])) && GbCpu.StackSlot(sp) ==> gb.PC == old(GbCpu.StackWord(gb, sp))
    ensures gb.GPR[..] == ControlRegs(i, old(gb.GPR[1]), old(gb.GPR[..]))
  {
    ReturnRegs(i, gb.GPR[1], gb.GPR[..]);
    if i == ReturnEnable {
      ScheduleIME(gb);
    }
    sp := GbCpu.Ret(gb);
  }

  /** RET cc: the condition evaluated on F, then the conditional return. */
  method ReturnCondition(gb: GB, i: Instr) returns (ghost sp: word)
    requires gb.Valid() && i.ReturnIf?
    modifies gb.GPR, gb.IO, gb`lastDIVSync, gb`lastTIMASync, gb`PC, gb`scheduleInterruptEnable
    modifies gb`clock, gb.OAM, gb`mCyclesSinceDMA, gb`dmaSource, gb`doingDMA, gb`scheduleDMA, gb`scheduled_dmaTimer
    ensures gb.Valid()
    ensures gb.clock == old(gb.clock) + Cycles(i, old(gb.GPR[1]), Shift(ShRlc, OpB), gb.emuMode == EmuCgb)
    ensures gb.scheduleInterruptEnable == (old(gb.scheduleInterruptEnable) || i == ReturnEnable)
    ensures sp == Reg16Of(old(gb.GPR[..]), SP)
    ensures !Taken(i, old(gb.GPR[1])) ==> gb.PC == old(gb.PC)
    ensures Taken(i, old(gb.GPR[1])) && GbCpu.StackSlot(sp) ==> gb.PC == old(GbCpu.StackWord(gb, sp))
    ensures gb.GPR[..] == ControlRegs(i, old(gb.GPR[1]), old(gb.GPR[..]))
  {
    ReturnRegs(i, gb.GPR[1], gb.GPR[..]);
    sp := GbCpu.RetCondition(gb, GbCpu.ConditionHolds(gb.GPR[1], i.cond));
  }

  // ---------------------------------------------------------------------------------------
  // NOP, DI, EI and the opcodes without a case

  predicate SystemForm(i: Instr)
  {
    match i
    case Nop => true
    case Unused => true
    case DisableInterrupts => true
    case EnableInterrupts => true
    case _ => false
  }

  /** INTERRUPT_MASTER_DISABLE and INTERRUPT_MASTER_ENABLE; NOP and the unused opcodes do
   *  nothing. */
  method ExecSystem(gb: GB, i: Instr)
    requires gb.Valid() && SystemForm(i)
    modifies gb`IME, gb`scheduleInterruptEnable
    ensures gb.Valid()
    ensures gb.IME == (old(gb.IME) && i != DisableInterrupts)
    ensures gb.scheduleInterruptEnable == (old(gb.scheduleInterruptEnable) || i == EnableInterrupts)
  {
    match i
    case Nop =>
    case Unused =>
    case DisableInterrupts =>
      DisableIME(gb);
    case EnableInterrupts =>
      ScheduleIME(gb);
  }

  /** INTERRUPT_MASTER_DISABLE under the whole state invariant. */
  method DisableIME(gb: GB)
    requires gb.Valid()
    modifies gb`IME
    ensures gb.Valid() && !gb.IME
  {
    gb.IME := false;
  }

  /** INTERRUPT_MASTER_ENABLE: IME is set by the next dispatch, not here. */
  method ScheduleIME(gb: GB)
    requires gb.Valid()
    modifies gb`scheduleInterruptEnable
    ensures gb.Valid() && gb.scheduleInterruptEnable
  {
    gb.scheduleInterruptEnable := true;
  }

  // ---------------------------------------------------------------------------------------
  // One instruction

  /** Every instruction the decoder produces falls in one of the groups. */
  lemma FormsCover(i: Instr)
    requires WellFormed(i)
    ensures RegisterForm(i) || MemoryForm(i) || ControlForm(i) || i == PrefixCB || i == Stop || i == Halt ||
            SystemForm(i)
  {
  }

  /** The register and memory forms fetch no more than their operands and leave IME and
   *  its schedule alone; PREFIX CB is none of them, nor a control form. */
  lemma FormFacts(i: Instr)
    ensures RegisterForm(i) ==> OperandBytes(i) == 0
    ensures RegisterForm(i) || MemoryForm(i) ==>
              i != DisableInterrupts && i != EnableInterrupts && i != ReturnEnable && i != PrefixCB
    ensures ControlForm(i) ==> i != DisableInterrupts && i != EnableInterrupts && i != PrefixCB
  {
  }

  /** No register or memory form is also a control form. */
  lemma DataNotControl(i: Instr)
    ensures RegisterForm(i) || MemoryForm(i) ==> !ControlForm(i)
  {
  }

  /** What an instruction does to the interrupt flags: DI clears IME, EI and RETI schedule the
   *  enable for the next dispatch, and the halt bug, once scheduled, stays scheduled. */
  predicate FlagStep(i: Instr, ime0: bool, enable0: bool, haltBug0: bool, ime: bool, enable: bool, haltBug: bool)
  {
    && ime == (ime0 && i != DisableInterrupts)
    && enable == (enable0 || i == EnableInterrupts || i == ReturnEnable)
    && (haltBug0 ==> haltBug)
  }

  /** The switch of dispatch on a decoded instruction. The clock advances by the
   *  instruction's cycles (c is the decoded CB byte of PREFIX CB); register-form instructions
   *  are RegisterStep on the register file; memory forms move PC past their operands; the
   *  interrupt flags change as FlagStep says. */
  method Execute(gb: GB, i: Instr) returns (ghost c: CbInstr)
    requires gb.Valid() && WellFormed(i)
    modifies gb.IO, gb.wram, gb.vram, gb.hram, gb.OAM, gb.bgColorRAM, gb.spriteColorRAM, GbMbc.Repr(gb.mbc)
    modifies gb`IE, gb`lastDIVSync, gb`lastTIMASync, gb`joypadSelectedMode, gb`selectedWRAMBank,
             gb`selectedVRAMBank, gb`currentBackgroundCRAMIndex, gb`currentSpriteCRAMIndex
    modifies gb`ppuMode, gb`cyclesSinceLastMode, gb`lockVRAM, gb`lockOAM, gb`lockPalettes, gb`ppuEnabled,
             gb`skipFrame, gb`cyclesSinceLastFrame
    modifies gb`scheduled_dmaSource, gb`scheduled_dmaTimer, gb`scheduleDMA
    modifies gb`clock, gb`mCyclesSinceDMA, gb`dmaSource, gb`doingDMA, gb.GPR, gb`PC
    modifies gb`IME, gb`haltMode, gb`scheduleHaltBug, gb`scheduleInterruptEnable, gb`doingSpeedSwitch, gb`isDoubleSpeedMode
    ensures gb.Valid()
    ensures gb.clock == old(gb.clock) + Cycles(i, old(gb.GPR[1]), c, gb.emuMode == EmuCgb)
    ensures RegisterForm(i) ==> gb.GPR[..] == RegisterStep(i, old(gb.GPR[..])) && gb.PC == old(gb.PC)
    ensures MemoryForm(i) ==> gb.PC == Advance(old(gb.PC), OperandBytes(i))
    ensures FlagStep(i, old(gb.IME), old(gb.scheduleInterruptEnable), old(gb.scheduleHaltBug),
                     gb.IME, gb.scheduleInterruptEnable, gb.scheduleHaltBug)
    ensures ControlForm(i) ==> gb.GPR[..] == ControlRegs(i, old(gb.GPR[1]), old(gb.GPR[..]))
    ensures i == PrefixCB && !TimerAddress(old(gb.PC)) ==> c == DecodeCB(old(Peek(gb, gb.PC)))
  {
    c := Shift(ShRlc, OpB);
    FormFacts(i);
    DataNotControl(i);
    if RegisterForm(i) || MemoryForm(i) {
      ExecDataKeepsFlags(gb, i);
    } else {
      c := ExecOther(gb, i);
    }
  }

  /** A register or memory form, which leaves the interrupt flags alone. */
  method ExecDataKeepsFlags(gb: GB, i: Instr)
    requires gb.Valid() && WellFormed(i) && (RegisterForm(i) || MemoryForm(i))
    modifies gb.IO, gb.wram, gb.vram, gb.hram, gb.OAM, gb.bgColorRAM, gb.spriteColorRAM, GbMbc.Repr(gb.mbc)
    modifies gb`IE, gb`lastDIVSync, gb`lastTIMASync, gb`joypadSelectedMode, gb`selectedWRAMBank,
             gb`selectedVRAMBank, gb`currentBackgroundCRAMIndex, gb`currentSpriteCRAMIndex
    modifies gb`ppuMode, gb`cyclesSinceLastMode, gb`lockVRAM, gb`lockOAM, gb`lockPalettes, gb`ppuEnabled,
             gb`skipFrame, gb`cyclesSinceLastFrame
    modifies gb`scheduled_dmaSource, gb`scheduled_dmaTimer, gb`scheduleDMA
    modifies gb`clock, gb`mCyclesSinceDMA, gb`dmaSource, gb`doingDMA, gb.GPR, gb`PC
    ensures gb.Valid()
    ensures gb.clock == old(gb.clock) + Cycles(i, old(gb.GPR[1]), Shift(ShRlc, OpB), gb.emuMode == EmuCgb)
    ensures RegisterForm(i) ==> gb.GPR[..] == RegisterStep(i, old(gb.GPR[..])) && gb.PC == old(gb.PC)
    ensures MemoryForm(i) ==> gb.PC == Advance(old(gb.PC), OperandBytes(i))
    ensures gb.IME == old(gb.IME) && gb.scheduleInterruptEnable == old(gb.scheduleInterruptEnable)
    ensures gb.scheduleHaltBug == old(gb.scheduleHaltBug)
  {
    ExecData(gb, i);
  }

  /** The register and memory forms. */
  method ExecData(gb: GB, i: Instr)
    requires gb.Valid() && WellFormed(i) && (RegisterForm(i) || MemoryForm(i))
    modifies gb.IO, gb.wram, gb.vram, gb.hram, gb.OAM, gb.bgColorRAM, gb.spriteColorRAM, GbMbc.Repr(gb.mbc)
    modifies gb`IE, gb`lastDIVSync, gb`lastTIMASync, gb`joypadSelectedMode, gb`selectedWRAMBank,
             gb`selectedVRAMBank, gb`currentBackgroundCRAMIndex, gb`currentSpriteCRAMIndex
    modifies gb`ppuMode, gb`cyclesSinceLastMode, gb`lockVRAM, gb`lockOAM, gb`lockPalettes, gb`ppuEnabled,
             gb`skipFrame, gb`cyclesSinceLastFrame
    modifies gb`scheduled_dmaSource, gb`scheduled_dmaTimer, gb`scheduleDMA
    modifies gb`clock, gb`mCyclesSinceDMA, gb`dmaSource, gb`doingDMA, gb.GPR, gb`PC
    ensures gb.Valid()
    ensures gb.clock == old(gb.clock) + Cycles(i, old(gb.GPR[1]), Shift(ShRlc, OpB), gb.emuMode == EmuCgb)
    ensures RegisterForm(i) ==> gb.GPR[..] == RegisterStep(i, old(gb.GPR[..])) && gb.PC == old(gb.PC)
    ensures MemoryForm(i) ==> gb.PC == Advance(old(gb.PC), OperandBytes(i))
    ensures gb.IME == old(gb.IME)
  {
    FormFacts(i);
    if RegisterForm(i) {
      ExecRegisterTimed(gb, i);
    } else {
      ExecMemory(gb, i);
    }
  }

  /** A register-form instruction, timed as the cycle table says. */
  method ExecRegisterTimed(gb: GB, i: Instr)
    requires gb.Valid() && RegisterForm(i)
    modifies gb.GPR, gb`clock, gb.OAM, gb`mCyclesSinceDMA, gb`dmaSource, gb`doingDMA, gb`scheduleDMA, gb`scheduled_dmaTimer
    ensures gb.Valid() && gb.GPR[..] == RegisterStep(i, old(gb.GPR[..]))
    ensures gb.clock == old(gb.clock) + Cycles(i, old(gb.GPR[1]), Shift(ShRlc, OpB), gb.emuMode == EmuCgb)
  {
    RegisterFormCycles(i, gb.GPR[1], Shift(ShRlc, OpB), gb.emuMode == EmuCgb);
    ExecRegister(gb, i);
  }

  /** The control-flow cases, PREFIX CB, STOP, HALT and the rest. */
  method ExecOther(gb: GB, i: Instr) returns (ghost c: CbInstr)
    requires gb.Valid() && WellFormed(i) && !RegisterForm(i) && !MemoryForm(i)
    modifies gb.IO, gb.wram, gb.vram, gb.hram, gb.OAM, gb.bgColorRAM, gb.spriteColorRAM, GbMbc.Repr(gb.mbc)
    modifies gb`IE, gb`lastDIVSync, gb`lastTIMASync, gb`joypadSelectedMode, gb`selectedWRAMBank,
             gb`selectedVRAMBank, gb`currentBackgroundCRAMIndex, gb`currentSpriteCRAMIndex
    modifies gb`ppuMode, gb`cyclesSinceLastMode, gb`lockVRAM, gb`lockOAM, gb`lockPalettes, gb`ppuEnabled,
             gb`skipFrame, gb`cyclesSinceLastFrame
    modifies gb`scheduled_dmaSource, gb`scheduled_dmaTimer, gb`scheduleDMA
    modifies gb`clock, gb`mCyclesSinceDMA, gb`dmaSource, gb`doingDMA, gb.GPR, gb`PC
    modifies gb`IME, gb`haltMode, gb`scheduleHaltBug, gb`scheduleInterruptEnable, gb`doingSpeedSwitch, gb`isDoubleSpeedMode
    ensures gb.Valid()
    ensures gb.clock == old(gb.clock) + Cycles(i, old(gb.GPR[1]), c, gb.emuMode == EmuCgb)
    ensures FlagStep(i, old(gb.IME), old(gb.scheduleInterruptEnable), old(gb.scheduleHaltBug),
                     gb.IME, gb.scheduleInterruptEnable, gb.scheduleHaltBug)
    ensures ControlForm(i) ==> gb.GPR[..] == ControlRegs(i, old(gb.GPR[1]), old(gb.GPR[..]))
    ensures i == PrefixCB && !TimerAddress(old(gb.PC)) ==> c == DecodeCB(old(Peek(gb, gb.PC)))
  {
    c := Shift(ShRlc, OpB);
    FormsCover(i);
    FormFacts(i);
    if ControlForm(i) {
      ExecControlFlags(gb, i);
    } else {
      c := ExecMisc(gb, i);
      assert FlagStep(i, old(gb.IME), old(gb.scheduleInterruptEnable), old(gb.scheduleHaltBug),
                      gb.IME, gb.scheduleInterruptEnable, gb.scheduleHaltBug);
    }
  }

  /** A jump, call, return or restart, with what it does to the interrupt flags. */
  method ExecControlFlags(gb: GB, i: Instr)
    requires gb.Valid() && ControlForm(i) && WellFormed(i)
    modifies gb.IO, gb.wram, gb.vram, gb.hram, gb.OAM, gb.bgColorRAM, gb.spriteColorRAM, GbMbc.Repr(gb.mbc)
    modifies gb`IE, gb`lastDIVSync, gb`lastTIMASync, gb`joypadSelectedMode, gb`selectedWRAMBank,
             gb`selectedVRAMBank, gb`currentBackgroundCRAMIndex, gb`currentSpriteCRAMIndex
    modifies gb`ppuMode, gb`cyclesSinceLastMode, gb`lockVRAM, gb`lockOAM, gb`lockPalettes, gb`ppuEnabled,
             gb`skipFrame, gb`cyclesSinceLastFrame
    modifies gb`scheduled_dmaSource, gb`scheduled_dmaTimer, gb`scheduleDMA
    modifies gb`clock, gb`mCyclesSinceDMA, gb`dmaSource, gb`doingDMA, gb.GPR, gb`PC, gb`scheduleInterruptEnable
    ensures gb.Valid()
    ensures gb.clock == old(gb.clock) + Cycles(i, old(gb.GPR[1]), Shift(ShRlc, OpB), gb.emuMode == EmuCgb)
    ensures FlagStep(i, old(gb.IME), old(gb.scheduleInterruptEnable), old(gb.scheduleHaltBug),
                     gb.IME, gb.scheduleInterruptEnable, gb.scheduleHaltBug)
    ensures gb.GPR[..] == ControlRegs(i, old(gb.GPR[1]), old(gb.GPR[..]))
  {
    FormFacts(i);
    var _, _, _ := ExecControl(gb, i);
  }

  method ExecMisc(gb: GB, i: Instr) returns (ghost c: CbInstr)
    requires gb.Valid() && (i == PrefixCB || i == Stop || i == Halt || SystemForm(i))
    modifies gb.IO, gb.wram, gb.vram, gb.hram, gb.OAM, gb.bgColorRAM, gb.spriteColorRAM, GbMbc.Repr(gb.mbc)
    modifies gb`IE, gb`lastDIVSync, gb`lastTIMASync, gb`joypadSelectedMode, gb`selectedWRAMBank,
             gb`selectedVRAMBank, gb`currentBackgroundCRAMIndex, gb`currentSpriteCRAMIndex
    modifies gb`ppuMode, gb`cyclesSinceLastMode, gb`lockVRAM, gb`lockOAM, gb`lockPalettes, gb`ppuEnabled,
             gb`skipFrame, gb`cyclesSinceLastFrame
    modifies gb`scheduled_dmaSource, gb`scheduled_dmaTimer, gb`scheduleDMA
    modifies gb`clock, gb`mCyclesSinceDMA, gb`dmaSource, gb`doingDMA, gb.GPR, gb`PC
    modifies gb`IME, gb`haltMode, gb`scheduleHaltBug, gb`scheduleInterruptEnable, gb`doingSpeedSwitch, gb`isDoubleSpeedMode
    ensures gb.Valid()
    ensures gb.clock == old(gb.clock) + Cycles(i, old(gb.GPR[1]), c, gb.emuMode == EmuCgb)
    ensures gb.IME == (old(gb.IME) && i != DisableInterrupts)
    ensures gb.scheduleInterruptEnable == (old(gb.scheduleInterruptEnable) || i == EnableInterrupts)
    ensures old(gb.scheduleHaltBug) ==> gb.scheduleHaltBug
    ensures i == PrefixCB && !TimerAddress(old(gb.PC)) ==> c == DecodeCB(old(Peek(gb, gb.PC)))
  {
    c := Shift(ShRlc, OpB);
    if i == PrefixCB || i == Stop {
      c := ExecPrefixOrStop(gb, i);
    } else {
      ExecHaltOrSystem(gb, i);
    }
  }

  method ExecPrefixOrStop(gb: GB, i: Instr) returns (ghost c: CbInstr)
    requires gb.Valid() && (i == PrefixCB || i == Stop)
    modifies gb.IO, gb.wram, gb.vram, gb.hram, gb.OAM, gb.bgColorRAM, gb.spriteColorRAM, GbMbc.Repr(gb.mbc)
    modifies gb`IE, gb`lastDIVSync, gb`lastTIMASync, gb`joypadSelectedMode, gb`selectedWRAMBank,
             gb`selectedVRAMBank, gb`currentBackgroundCRAMIndex, gb`currentSpriteCRAMIndex
    modifies gb`ppuMode, gb`cyclesSinceLastMode, gb`lockVRAM, gb`lockOAM, gb`lockPalettes, gb`ppuEnabled,
             gb`skipFrame, gb`cyclesSinceLastFrame
    modifies gb`scheduled_dmaSource, gb`scheduled_dmaTimer, gb`scheduleDMA
    modifies gb`clock, gb`mCyclesSinceDMA, gb`dmaSource, gb`doingDMA, gb.GPR, gb`PC
    modifies gb`IME, gb`haltMode, gb`scheduleHaltBug, gb`scheduleInterruptEnable, gb`doingSpeedSwitch, gb`isDoubleSpeedMode
    ensures gb.Valid()
    ensures gb.clock == old(gb.clock) + Cycles(i, old(gb.GPR[1]), c, gb.emuMode == EmuCgb)
    ensures gb.IME == (old(gb.IME) && i != DisableInterrupts)
    ensures gb.scheduleInterruptEnable == (old(gb.scheduleInterruptEnable) || i == EnableInterrupts)
    ensures old(gb.scheduleHaltBug) ==> gb.scheduleHaltBug
    ensures i == PrefixCB && !TimerAddress(old(gb.PC)) ==> c == DecodeCB(old(Peek(gb, gb.PC)))
  {
    if i == PrefixCB {
      c := PrefixFlags(gb);
    } else {
      c := Shift(ShRlc, OpB);
      StopTimed(gb);
    }
  }

  /** prefixCB, with its clock cycles as one sum. */
  method PrefixTimed(gb: GB) returns (ghost c: CbInstr)
    requires gb.Valid()
    modifies gb.IO, gb.wram, gb.vram, gb.hram, gb.OAM, gb.bgColorRAM, gb.spriteColorRAM, GbMbc.Repr(gb.mbc)
    modifies gb`IE, gb`lastDIVSync, gb`lastTIMASync, gb`joypadSelectedMode, gb`selectedWRAMBank,
             gb`selectedVRAMBank, gb`currentBackgroundCRAMIndex, gb`currentSpriteCRAMIndex
    modifies gb`ppuMode, gb`cyclesSinceLastMode, gb`lockVRAM, gb`lockOAM, gb`lockPalettes, gb`ppuEnabled,
             gb`skipFrame, gb`cyclesSinceLastFrame
    modifies gb`scheduled_dmaSource, gb`scheduled_dmaTimer, gb`scheduleDMA
    modifies gb`clock, gb`mCyclesSinceDMA, gb`dmaSource, gb`doingDMA, gb.GPR, gb`PC
    ensures gb.Valid() && gb.clock == old(gb.clock) + 4 + CbCycles(c)
    ensures !TimerAddress(old(gb.PC)) ==> c == DecodeCB(old(Peek(gb, gb.PC)))
  {
    var op, cb, _ := ExecCB(gb);
    c := cb;
  }

  /** prefixCB leaves the interrupt flags alone. */
  method PrefixFlags(gb: GB) returns (ghost c: CbInstr)
    requires gb.Valid()
    modifies gb.IO, gb.wram, gb.vram, gb.hram, gb.OAM, gb.bgColorRAM, gb.spriteColorRAM, GbMbc.Repr(gb.mbc)
    modifies gb`IE, gb`lastDIVSync, gb`lastTIMASync, gb`joypadSelectedMode, gb`selectedWRAMBank,
             gb`selectedVRAMBank, gb`currentBackgroundCRAMIndex, gb`currentSpriteCRAMIndex
    modifies gb`ppuMode, gb`cyclesSinceLastMode, gb`lockVRAM, gb`lockOAM, gb`lockPalettes, gb`ppuEnabled,
             gb`skipFrame, gb`cyclesSinceLastFrame
    modifies gb`scheduled_dmaSource, gb`scheduled_dmaTimer, gb`scheduleDMA
    modifies gb`clock, gb`mCyclesSinceDMA, gb`dmaSource, gb`doingDMA, gb.GPR, gb`PC
    ensures gb.Valid() && gb.clock == old(gb.clock) + Cycles(PrefixCB, old(gb.GPR[1]), c, gb.emuMode == EmuCgb)
    ensures gb.IME == old(gb.IME) && gb.scheduleInterruptEnable == old(gb.scheduleInterruptEnable)
    ensures gb.scheduleHaltBug == old(gb.scheduleHaltBug)
    ensures !TimerAddress(old(gb.PC)) ==> c == DecodeCB(old(Peek(gb, gb.PC)))
  {
    c := PrefixTimed(gb);
    PrefixCycles(old(gb.GPR[1]), c, gb.emuMode == EmuCgb);
  }

  /** stop, with its clock cycles as one sum. */
  method StopTimed(gb: GB)
    requires gb.Valid()
    modifies gb.IO, gb`lastDIVSync, gb`lastTIMASync, gb`PC
    modifies gb`clock, gb.OAM, gb`mCyclesSinceDMA, gb`dmaSource, gb`doingDMA, gb`scheduleDMA, gb`scheduled_dmaTimer
    modifies gb`doingSpeedSwitch, gb`isDoubleSpeedMode
    ensures gb.Valid() && gb.clock == old(gb.clock) + (if gb.emuMode == EmuCgb then 4 + 4 * 2050 else 4)
    ensures gb.clock == old(gb.clock) + Cycles(Stop, old(gb.GPR[1]), Shift(ShRlc, OpB), gb.emuMode == EmuCgb)
    ensures gb.IME == old(gb.IME) && gb.scheduleInterruptEnable == old(gb.scheduleInterruptEnable)
    ensures gb.scheduleHaltBug == old(gb.scheduleHaltBug)
  {
    GbCpu.Stop(gb);
  }

  method ExecHaltOrSystem(gb: GB, i: Instr)
    requires gb.Valid() && (i == Halt || SystemForm(i))
    modifies gb.IO, gb.wram, gb.vram, gb.hram, gb.OAM, gb.bgColorRAM, gb.spriteColorRAM, GbMbc.Repr(gb.mbc)
    modifies gb`IE, gb`lastDIVSync, gb`lastTIMASync, gb`joypadSelectedMode, gb`selectedWRAMBank,
             gb`selectedVRAMBank, gb`currentBackgroundCRAMIndex, gb`currentSpriteCRAMIndex
    modifies gb`ppuMode, gb`cyclesSinceLastMode, gb`lockVRAM, gb`lockOAM, gb`lockPalettes, gb`ppuEnabled,
             gb`skipFrame, gb`cyclesSinceLastFrame
    modifies gb`scheduled_dmaSource, gb`scheduled_dmaTimer, gb`scheduleDMA
    modifies gb`clock, gb`mCyclesSinceDMA, gb`dmaSource, gb`doingDMA, gb.GPR, gb`PC
    modifies gb`IME, gb`haltMode, gb`scheduleHaltBug, gb`scheduleInterruptEnable, gb`doingSpeedSwitch, gb`isDoubleSpeedMode
    ensures gb.Valid()
    ensures gb.clock == old(gb.clock) + Cycles(i, old(gb.GPR[1]), Shift(ShRlc, OpB), gb.emuMode == EmuCgb)
    ensures gb.IME == (old(gb.IME) && i != DisableInterrupts)
    ensures gb.scheduleInterruptEnable == (old(gb.scheduleInterruptEnable) || i == EnableInterrupts)
    ensures old(gb.scheduleHaltBug) ==> gb.scheduleHaltBug
  {
    if i == Halt {
      GbCpu.Halt(gb);
    } else {
      ExecSystem(gb, i);
    }
  }
}
