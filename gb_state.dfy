// The Game Boy machine record of include/gb/gb.h (struct GB) as a class, with the register-file
// helpers, the flag helpers and requestInterrupt of gb/cpu.c, and the power-on state that
// initGB, initGBCartridge and resetGB / resetGBC (gb/gb.c, gb/cpu.c) give it.

module GbState {
  import opened Bits
  import opened GbCart
  import GbAlu
  import GbMbc

  /** EMULATION_MODE */
  datatype EmuMode = EmuDmg | EmuCgb

  /** JOYPAD_SELECT, in declaration order. */
  datatype JoypadSelect = SelectDirectionAction | SelectAction | SelectDirection | SelectNone

  /** PPU_MODE: 0 H-blank, 1 V-blank, 2 OAM scan, 3 drawing. */
  datatype PpuMode = Mode0 | Mode1 | Mode2 | Mode3

  /** The value a mode has in STAT bits 0-1. */
  function ModeBits(m: PpuMode): (b: byte)
    ensures b <= 3
  {
    match m
    case Mode0 => 0
    case Mode1 => 1
    case Mode2 => 2
    case Mode3 => 3
  }

  /** GP_REG: the ten bytes of the register file, in array order. */
  datatype Reg8 = RegA | RegF | RegB | RegC | RegD | RegE | RegH | RegL | RegSpHigh | RegSpLow

  function RegIndex(r: Reg8): (i: nat)
    ensures i < 10
  {
    match r
    case RegA => 0
    case RegF => 1
    case RegB => 2
    case RegC => 3
    case RegD => 4
    case RegE => 5
    case RegH => 6
    case RegL => 7
    case RegSpHigh => 8
    case RegSpLow => 9
  }

  /** The 16-bit views R16_AF .. R16_SP; each names its high byte. */
  datatype Reg16 = AF | BC | DE | HL | SP

  function PairIndex(rr: Reg16): (i: nat)
    ensures i < 9 && i % 2 == 0
  {
    match rr
    case AF => 0
    case BC => 2
    case DE => 4
    case HL => 6
    case SP => 8
  }

  /** INTERRUPT, in priority order. */
  datatype Interrupt = IntVBlank | IntLcdStat | IntTimer | IntSerial | IntJoypad

  /** The IF / IE bit of an interrupt. */
  function InterruptBit(i: Interrupt): (n: nat)
    ensures n < 5
  {
    match i
    case IntVBlank => 0
    case IntLcdStat => 1
    case IntTimer => 2
    case IntSerial => 3
    case IntJoypad => 4
  }

  function InterruptMask(i: Interrupt): (m: byte)
    ensures m == (1 as byte) << InterruptBit(i)
  {
    match i
    case IntVBlank => 0x01
    case IntLcdStat => 0x02
    case IntTimer => 0x04
    case IntSerial => 0x08
    case IntJoypad => 0x10
  }

  // HREG: offsets of the I/O registers inside IO[].
  const R_P1_JOYP: nat := 0x00
  const R_SB: nat := 0x01
  const R_SC: nat := 0x02
  const R_DIV: nat := 0x04
  const R_TIMA: nat := 0x05
  const R_TMA: nat := 0x06
  const R_TAC: nat := 0x07
  const R_IF: nat := 0x0F
  const R_LCDC: nat := 0x40
  const R_STAT: nat := 0x41
  const R_SCY: nat := 0x42
  const R_SCX: nat := 0x43
  const R_LY: nat := 0x44
  const R_LYC: nat := 0x45
  const R_DMA: nat := 0x46
  const R_BGP: nat := 0x47
  const R_OBP0: nat := 0x48
  const R_OBP1: nat := 0x49
  const R_WY: nat := 0x4A
  const R_WX: nat := 0x4B
  const R_KEY0: nat := 0x4C
  const R_KEY1: nat := 0x4D
  const R_VBK: nat := 0x4F
  const R_HDMA1: nat := 0x51
  const R_HDMA2: nat := 0x52
  const R_HDMA3: nat := 0x53
  const R_HDMA4: nat := 0x54
  const R_HDMA5: nat := 0x55
  const R_BCPS: nat := 0x68
  const R_BCPD: nat := 0x69
  const R_OCPS: nat := 0x6A
  const R_OCPD: nat := 0x6B
  const R_OPRI: nat := 0x6C
  const R_SVBK: nat := 0x70

  /** The emulation mode a cartridge selects in initGBCartridge. */
  function ModeFor(c: CgbCode): EmuMode
  {
    if c == DmgMode then EmuDmg else EmuCgb
  }

  /** Bytes of WRAM allocated: eight 4 KiB banks on CGB, two on DMG. */
  function WramSize(m: EmuMode): nat
  {
    if m == EmuCgb then 0x8000 else 0x2000
  }

  /** Bytes of VRAM allocated: two 8 KiB banks on CGB, one on DMG. */
  function VramSize(m: EmuMode): nat
  {
    if m == EmuCgb then 0x4000 else 0x2000
  }

  /** hreg_defaults[i] of resetGB (DMG) or resetGBC (CGB): IO[0x00..0x4F] at PC = 0x100. The two
   *  tables differ only at SC (0x02), DIV (0x04) and KEY0 (0x4C). */
  function HregDefault(m: EmuMode, i: nat): byte
    requires i < 0x50
  {
    if i < 0x08 then [0xCF, 0x00, if m == EmuCgb then 0x7F else 0x7E, 0xFF,
                      if m == EmuCgb then 0xAC else 0xAB, 0x00, 0x00, 0xF8][i]
    else if i < 0x10 then (if i == 0x0F then 0xE1 else 0xFF)
    else if i < 0x18 then [0x80, 0xBF, 0xF3, 0xFF, 0xBF, 0xFF, 0x3F, 0x00][i - 0x10]
    else if i < 0x20 then [0xFF, 0xBF, 0x7F, 0xFF, 0x9F, 0xFF, 0xBF, 0xFF][i - 0x18]
    else if i < 0x28 then [0xFF, 0x00, 0x00, 0xBF, 0x77, 0xF3, 0xF1, 0xFF][i - 0x20]
    else if i < 0x40 then 0xFF
    else if i < 0x48 then [0x91, 0x86, 0x00, 0x00, 0x00, 0x00, 0x00, 0xFC][i - 0x40]
    else [0xFF, 0xFF, 0x00, 0x00, if m == EmuCgb then 0x7E else 0xFF, 0xFF, 0xFF, 0xFF][i - 0x48]
  }

  /** The whole hreg_defaults table. */
  function HregDefaults(m: EmuMode): (t: seq<byte>)
    ensures |t| == 0x50 && forall i :: 0 <= i < 0x50 ==> t[i] == HregDefault(m, i)
  {
    seq(0x50, i requires 0 <= i < 0x50 => HregDefault(m, i))
  }

  /** IO[] after a reset: the defaults table, 0xFF from 0x50 on, and on CGB the bank, object
   *  priority and KEY0 registers set after that. */
  function ResetIO(m: EmuMode): (io: seq<byte>)
    ensures |io| == 0x80
    ensures forall i :: 0 <= i < 0x50 && (m == EmuDmg || (i != R_KEY0 && i != R_VBK)) ==> io[i] == HregDefaults(m)[i]
    ensures forall i :: 0x50 <= i < 0x80 && (m == EmuDmg || (i != R_SVBK && i != R_OPRI)) ==> io[i] == 0xFF
    ensures m == EmuCgb ==> io[R_SVBK] == 0xF9 && io[R_VBK] == 0xFE && io[R_OPRI] == 0x01 && io[R_KEY0] == 0x00
  {
    var base := HregDefaults(m) + seq(0x30, _ => 0xFF);
    if m == EmuCgb then base[R_SVBK := 0xF9][R_VBK := 0xFE][R_OPRI := 0x01][R_KEY0 := 0x00] else base
  }

  /** GPR[] after resetGB / resetGBC, in GP_REG order (SP = 0xFFFE on both). On DMG, F depends
   *  on whether the header checksum is zero. */
  function ResetRegisters(m: EmuMode, headerChecksum: byte): (gpr: seq<byte>)
    ensures |gpr| == 10
    ensures Join(gpr[8], gpr[9]) == 0xFFFE
    ensures m == EmuDmg ==> gpr[1] == (if headerChecksum == 0 then 0xF0 else 0xB0)
  {
    if m == EmuCgb then [0x11, 0x80, 0x00, 0x00, 0xFF, 0x56, 0x00, 0x0D, 0xFF, 0xFE]
    else [0x01, if headerChecksum == 0 then 0xF0 else 0xB0, 0x00, 0x13, 0x00, 0xD8, 0x01, 0x4D, 0xFF, 0xFE]
  }

  /** get_reg16 on a register file: high byte first. */
  function Reg16Of(gpr: seq<byte>, rr: Reg16): word
    requires |gpr| == 10
  {
    Join(gpr[PairIndex(rr)], gpr[PairIndex(rr) + 1])
  }

  /** set_reg16 on a register file. */
  function WithReg16(gpr: seq<byte>, rr: Reg16, v: word): (g: seq<byte>)
    requires |gpr| == 10
    ensures |g| == 10
  {
    gpr[PairIndex(rr) := Hi(v)][PairIndex(rr) + 1 := Lo(v)]
  }

  /** set_reg16 then get_reg16 gives the value back, and only the pair's two bytes change. */
  lemma Reg16RoundTrip(gpr: seq<byte>, rr: Reg16, v: word)
    requires |gpr| == 10
    ensures Reg16Of(WithReg16(gpr, rr, v), rr) == v
    ensures forall i :: 0 <= i < 10 && i != PairIndex(rr) && i != PairIndex(rr) + 1 ==> WithReg16(gpr, rr, v)[i] == gpr[i]
  {
    JoinHiLo(v);
  }

  /** Writing a pair with the value it already holds changes nothing. */
  lemma Reg16WriteBack(gpr: seq<byte>, rr: Reg16)
    requires |gpr| == 10
    ensures WithReg16(gpr, rr, Reg16Of(gpr, rr)) == gpr
  {
    HiLoJoin(gpr[PairIndex(rr)], gpr[PairIndex(rr) + 1]);
  }

  /** A second write to a pair replaces the first. */
  lemma Reg16Overwrite(gpr: seq<byte>, rr: Reg16, u: word, v: word)
    requires |gpr| == 10
    ensures WithReg16(WithReg16(gpr, rr, u), rr, v) == WithReg16(gpr, rr, v)
  {
  }

  /** Two register files that agree outside a pair and on the pair's value are the same. */
  lemma SamePair(g: seq<byte>, h: seq<byte>, rr: Reg16)
    requires |g| == 10 && |h| == 10 && Reg16Of(g, rr) == Reg16Of(h, rr)
    requires forall i :: 0 <= i < 10 && i != PairIndex(rr) && i != PairIndex(rr) + 1 ==> g[i] == h[i]
    ensures g == h
  {
    var p := PairIndex(rr);
    HiLoJoin(g[p], g[p + 1]);
    HiLoJoin(h[p], h[p + 1]);
    assert forall i | 0 <= i < 10 :: g[i] == h[i];
  }

  /** Moving a pair down by two (a push) and then up by two from where it now stands (a pop)
   *  restores the register file. */
  lemma Reg16DownUp(gpr: seq<byte>, moved: seq<byte>, rr: Reg16, x: word, y: word)
    requires |gpr| == 10 && x == Reg16Of(gpr, rr) && moved == WithReg16(gpr, rr, x - 2) && y == Reg16Of(moved, rr)
    ensures WithReg16(moved, rr, y + 2) == gpr
  {
    Reg16RoundTrip(gpr, rr, x - 2);
    DownUp2(x, y);
    Reg16RoundTrip(moved, rr, y + 2);
    SamePair(WithReg16(moved, rr, y + 2), gpr, rr);
  }

  /** memset(cram, 0xFF, 64) */
  method FillColorRAM(cram: array<byte>)
    requires cram.Length == 0x40
    modifies cram
    ensures cram[..] == seq(0x40, _ => 0xFF)
  {
    var i := 0;
    while i < 0x40
      invariant 0 <= i <= 0x40
      invariant cram[..i] == seq(i, _ => 0xFF)
    {
      cram[i] := 0xFF;
      i := i + 1;
    }
  }

  class GB {
    // The cartridge and the decisions initGBCartridge and mbc_allocate take once.
    const cart: Cart
    const emuMode: EmuMode
    var mbc: GbMbc.Controller

    // Fixed-size and allocated memories.
    const GPR: array<byte>
    const IO: array<byte>
    const hram: array<byte>
    const OAM: array<byte>
    const wram: array<byte>
    const vram: array<byte>
    const bgColorRAM: array?<byte>
    const spriteColorRAM: array?<byte>

    // CPU
    var PC: word
    var IE: byte
    var IME: bool
    var scheduleInterruptEnable: bool
    var haltMode: bool
    var scheduleHaltBug: bool

    // Banking and colour RAM indices
    var selectedWRAMBank: byte
    var selectedVRAMBank: byte
    var currentBackgroundCRAMIndex: byte
    var currentSpriteCRAMIndex: byte

    // PPU
    var ppuMode: PpuMode
    var ppuEnabled: bool
    var skipFrame: bool
    var lockVRAM: bool
    var lockOAM: bool
    var lockPalettes: bool
    var cyclesSinceLastMode: nat
    var cyclesSinceLastFrame: nat

    // Timer (T-cycles)
    var clock: nat
    var lastDIVSync: nat
    var lastTIMASync: nat

    // OAM DMA
    var scheduleDMA: bool
    var doingDMA: bool
    var mCyclesSinceDMA: nat
    var scheduled_dmaSource: word
    var scheduled_dmaTimer: byte
    var dmaSource: word

    // Joypad
    var joypadDirectionBuffer: byte
    var joypadActionBuffer: byte
    var joypadSelectedMode: JoypadSelect

    // CGB speed switch and HDMA
    var doingSpeedSwitch: bool
    var isDoubleSpeedMode: bool
    var doingHDMA: bool

    /** The memories have the sizes the mode allocates and are distinct objects. Needs no heap:
     *  every field it reads is constant. */
    predicate Shape()
    {
      GPR.Length == 10 && IO.Length == 0x80 && hram.Length == 0x7F && OAM.Length == 0xA0 &&
      wram.Length == WramSize(emuMode) && vram.Length == VramSize(emuMode) &&
      (emuMode == EmuCgb <==> bgColorRAM != null) && (emuMode == EmuCgb <==> spriteColorRAM != null) &&
      (bgColorRAM != null ==> bgColorRAM.Length == 0x40) &&
      (spriteColorRAM != null ==> spriteColorRAM.Length == 0x40) &&
      GPR != IO && GPR != hram && GPR != OAM && GPR != wram && GPR != vram &&
      IO != hram && IO != OAM && IO != wram && IO != vram &&
      hram != OAM && hram != wram && hram != vram &&
      OAM != wram && OAM != vram && wram != vram &&
      bgColorRAM !in {GPR, IO, hram, OAM, wram, vram} &&
      spriteColorRAM !in {GPR, IO, hram, OAM, wram, vram} &&
      (bgColorRAM != null ==> bgColorRAM != spriteColorRAM)
    }

    /** Neither the machine nor any of its memories belongs to the memory bank controller. */
    predicate Apart()
      reads this`mbc
    {
      var r := GbMbc.Repr(mbc);
      this !in r && GPR !in r && IO !in r && hram !in r && OAM !in r && wram !in r && vram !in r &&
      bgColorRAM !in r && spriteColorRAM !in r
    }

    /** The bank registers select banks that exist (WRAM 1..7 on CGB and 1 on DMG, VRAM 0..1
     *  on CGB and 0 on DMG) and the colour RAM indices stay inside the 64-byte palettes. */
    predicate BanksOk()
      reads this`selectedWRAMBank, this`selectedVRAMBank, this`currentBackgroundCRAMIndex,
            this`currentSpriteCRAMIndex
    {
      1 <= selectedWRAMBank <= (if emuMode == EmuCgb then 7 else 1) &&
      selectedVRAMBank <= (if emuMode == EmuCgb then 1 else 0) &&
      currentBackgroundCRAMIndex < 0x40 && currentSpriteCRAMIndex < 0x40
    }

    /** The timer never synced ahead of the clock. */
    predicate TimerOk()
      reads this`clock, this`lastDIVSync, this`lastTIMASync
    {
      lastDIVSync <= clock && lastTIMASync <= clock
    }

    /** An OAM DMA is either counting its 160 M-cycles or idle, and a scheduled one starts 4 or
     *  8 T-cycles later. */
    predicate DmaOk()
      reads this`mCyclesSinceDMA, this`doingDMA, this`scheduleDMA, this`scheduled_dmaTimer
      reads this`scheduled_dmaSource, this`dmaSource
    {
      mCyclesSinceDMA < 160 && (!doingDMA ==> mCyclesSinceDMA == 0) &&
      (scheduleDMA ==> scheduled_dmaTimer == 4 || scheduled_dmaTimer == 8) &&
      scheduled_dmaSource <= 0xDF00 && dmaSource <= 0xDF00
    }

    /** The state invariant. */
    predicate Valid()
      reads this`mbc, this`selectedWRAMBank, this`selectedVRAMBank, this`currentBackgroundCRAMIndex,
            this`currentSpriteCRAMIndex, this`clock, this`lastDIVSync, this`lastTIMASync,
            this`mCyclesSinceDMA, this`doingDMA, this`scheduleDMA, this`scheduled_dmaTimer,
            this`scheduled_dmaSource, this`dmaSource, GbMbc.Repr(mbc)
    {
      Shape() && Apart() && GbMbc.Valid(mbc) && BanksOk() && TimerOk() && DmaOk()
    }

    /** initGB, together with the emulation mode and the memory allocations initGBCartridge
     *  makes for it. No memory bank controller yet (MBC_NONE); the allocated memories start
     *  zeroed (C leaves them uninitialised), and so do the fields initGB leaves unset. */
    constructor (cart: Cart)
      ensures this.cart == cart && mbc == GbMbc.NoMbc && emuMode == ModeFor(cart.cgbCode)
      ensures Shape() && Apart() && TimerOk() && DmaOk()
      ensures fresh(GPR) && fresh(IO) && fresh(hram) && fresh(OAM) && fresh(wram) && fresh(vram)
      ensures bgColorRAM != null ==> fresh(bgColorRAM) && fresh(spriteColorRAM)
      ensures selectedWRAMBank == 0 && selectedVRAMBank == 0
      ensures currentBackgroundCRAMIndex == 0 && currentSpriteCRAMIndex == 0
      ensures ppuMode == Mode2 && ppuEnabled && !skipFrame
      ensures !scheduleInterruptEnable && !haltMode && !scheduleHaltBug
      ensures clock == 0 && lastDIVSync == 0 && lastTIMASync == 0
      ensures !scheduleDMA && !doingDMA && mCyclesSinceDMA == 0 && dmaSource == 0 && scheduled_dmaSource == 0
      ensures joypadSelectedMode == SelectDirectionAction && joypadDirectionBuffer == 0xF && joypadActionBuffer == 0xF
    {
      var m := ModeFor(cart.cgbCode);
      this.cart := cart;
      this.emuMode := m;
      mbc := GbMbc.NoMbc;
      GPR := new byte[10];
      IO := new byte[0x80];
      hram := new byte[0x7F];
      OAM := new byte[0xA0];
      wram := new byte[WramSize(m)];
      vram := new byte[VramSize(m)];
      if m == EmuCgb {
        bgColorRAM := new byte[0x40];
        spriteColorRAM := new byte[0x40];
      } else {
        bgColorRAM := null;
        spriteColorRAM := null;
      }
      PC := 0;
      IE := 0;
      IME := false;
      scheduleInterruptEnable := false;
      haltMode := false;
      scheduleHaltBug := false;
      selectedWRAMBank := 0;
      selectedVRAMBank := 0;
      currentBackgroundCRAMIndex := 0;
      currentSpriteCRAMIndex := 0;
      ppuMode := Mode2;
      ppuEnabled := true;
      skipFrame := false;
      lockVRAM := false;
      lockOAM := false;
      lockPalettes := false;
      cyclesSinceLastMode := 0;
      cyclesSinceLastFrame := 0;
      clock := 0;
      lastDIVSync := 0;
      lastTIMASync := 0;
      scheduleDMA := false;
      doingDMA := false;
      mCyclesSinceDMA := 0;
      scheduled_dmaSource := 0;
      scheduled_dmaTimer := 0;
      dmaSource := 0;
      joypadDirectionBuffer := 0xF;
      joypadActionBuffer := 0xF;
      joypadSelectedMode := SelectDirectionAction;
      doingSpeedSwitch := false;
      isDoubleSpeedMode := false;
      doingHDMA := false;
    }

    /** The rest of initGBCartridge. The PPU starts in mode 2 without the usual mode switch: on
     *  CGB OAM is locked and the cycle counters start at 0, on DMG nothing is locked and the
     *  counters start at 4. The registers and I/O are reset for the mode, and the WRAM / VRAM
     *  banks are the ones SVBK / VBK select after that reset (7 and 1 on CGB, 1 and 0 on DMG). */
    method InitCartridge()
      requires Shape()
      modifies GPR, IO, hram, bgColorRAM, spriteColorRAM, this`PC, this`IME, this`lockVRAM,
               this`lockOAM, this`lockPalettes, this`cyclesSinceLastMode, this`cyclesSinceLastFrame,
               this`selectedWRAMBank, this`selectedVRAMBank
      ensures selectedWRAMBank == (if emuMode == EmuCgb then 7 else 1)
      ensures selectedVRAMBank == (if emuMode == EmuCgb then 1 else 0)
      ensures lockOAM == (emuMode == EmuCgb) && !lockVRAM && !lockPalettes
      ensures cyclesSinceLastMode == cyclesSinceLastFrame == (if emuMode == EmuCgb then 0 else 4)
      ensures PC == 0x0100 && !IME
      ensures GPR[..] == ResetRegisters(emuMode, cart.headerChecksum)
      ensures IO[..] == ResetIO(emuMode) && hram[..] == seq(0x7F, _ => 0xFF)
      ensures emuMode == EmuCgb ==> bgColorRAM[..] == seq(0x40, _ => 0xFF) && spriteColorRAM[..] == seq(0x40, _ => 0xFF)
    {
      if emuMode == EmuCgb {
        lockVRAM := false;
        lockOAM := true;
        lockPalettes := false;
        cyclesSinceLastFrame := 0;
        cyclesSinceLastMode := 0;
        ResetGBC();
        selectedVRAMBank := 1;
        selectedWRAMBank := 7;
      } else {
        selectedVRAMBank := 0;
        selectedWRAMBank := 1;
        lockOAM := false;
        lockPalettes := false;
        lockVRAM := false;
        cyclesSinceLastFrame := 4;
        cyclesSinceLastMode := 4;
        ResetGB();
      }
    }

    /** mbc_allocate(gb): the controller for the cartridge; on the fatal path nothing changes. */
    method AllocateController() returns (ok: bool)
      requires Shape() && mbc == GbMbc.NoMbc
      modifies this`mbc
      ensures ok <==> GbMbc.Allocatable(cart)
      ensures ok ==> Apart() && GbMbc.Valid(mbc) && fresh(GbMbc.Repr(mbc))
      ensures !ok ==> mbc == old(mbc)
    {
      var c;
      ok, c := GbMbc.Allocate(cart);
      if ok {
        mbc := c;
      }
    }

    /** The part of resetGB / resetGBC both share: the defaults table of mode m (each reset
     *  function has its own) for IO[0x00..0x4F], then 0xFF over the 0xAF bytes from IO[0x50]
     *  on, which in the struct layout are IO[0x50..0x7F] followed by all of hram. */
    method LoadDefaults(m: EmuMode)
      requires Shape()
      modifies IO, hram
      ensures IO[..] == HregDefaults(m) + seq(0x30, _ => 0xFF)
      ensures hram[..] == seq(0x7F, _ => 0xFF)
    {
      var table := HregDefaults(m);
      var i := 0;
      while i < 0x50
        invariant 0 <= i <= 0x50
        invariant IO[..i] == table[..i]
      {
        IO[i] := table[i];
        i := i + 1;
      }
      i := 0x50;
      while i < 0x80
        invariant 0x50 <= i <= 0x80
        invariant IO[..i] == table + seq(i - 0x50, _ => 0xFF)
      {
        IO[i] := 0xFF;
        i := i + 1;
      }
      i := 0;
      while i < 0x7F
        modifies hram
        invariant 0 <= i <= 0x7F
        invariant hram[..i] == seq(i, _ => 0xFF)
      {
        hram[i] := 0xFF;
        i := i + 1;
      }
    }

    /** The set_reg16 / set_reg8 sequence of a reset: the register file becomes `regs`. */
    method LoadRegisters(regs: seq<byte>)
      requires Shape() && |regs| == 10
      modifies GPR
      ensures GPR[..] == regs
    {
      var i := 0;
      while i < 10
        invariant 0 <= i <= 10 && GPR[..i] == regs[..i]
      {
        GPR[i] := regs[i];
        i := i + 1;
      }
    }

    /** resetGB: the DMG registers at PC = 0x100 and the DMG I/O defaults, whatever the mode;
     *  IME cleared. */
    method ResetGB()
      requires Shape()
      modifies GPR, IO, hram, this`PC, this`IME
      ensures PC == 0x0100 && !IME
      ensures GPR[..] == ResetRegisters(EmuDmg, cart.headerChecksum)
      ensures IO[..] == ResetIO(EmuDmg)
      ensures hram[..] == seq(0x7F, _ => 0xFF)
    {
      PC := 0x0100;
      LoadRegisters(ResetRegisters(EmuDmg, cart.headerChecksum));
      LoadDefaults(EmuDmg);
      IME := false;
    }

    /** resetGBC: the CGB registers at PC = 0x100, the I/O defaults with the bank, priority and
     *  KEY0 registers set afterwards, both colour RAMs white (0xFF); IME cleared. */
    method ResetGBC()
      requires Shape() && emuMode == EmuCgb
      modifies GPR, IO, hram, bgColorRAM, spriteColorRAM, this`PC, this`IME
      ensures PC == 0x0100 && !IME
      ensures GPR[..] == ResetRegisters(EmuCgb, cart.headerChecksum)
      ensures IO[..] == ResetIO(EmuCgb)
      ensures hram[..] == seq(0x7F, _ => 0xFF)
      ensures bgColorRAM[..] == seq(0x40, _ => 0xFF) && spriteColorRAM[..] == seq(0x40, _ => 0xFF)
    {
      PC := 0x0100;
      LoadRegisters(ResetRegisters(EmuCgb, cart.headerChecksum));
      LoadDefaults(EmuCgb);
      FillColorRAM(bgColorRAM);
      FillColorRAM(spriteColorRAM);
      IO[R_SVBK] := 0xF9;
      IO[R_VBK] := 0xFE;
      IO[R_OPRI] := 0x01;
      IO[R_KEY0] := 0x00;
      IME := false;
    }

    /** get_reg8 */
    function GetReg8(r: Reg8): byte
      requires Shape()
      reads GPR
    {
      GPR[RegIndex(r)]
    }

    /** set_reg8: only that byte of the register file changes. */
    method SetReg8(r: Reg8, v: byte)
      requires Shape()
      modifies GPR
      ensures GPR[..] == old(GPR[..])[RegIndex(r) := v]
    {
      GPR[RegIndex(r)] := v;
    }

    /** get_reg16 */
    function GetReg16(rr: Reg16): word
      requires Shape()
      reads GPR
    {
      Reg16Of(GPR[..], rr)
    }

    /** set_reg16: returns v, which get_reg16 then reads back (Reg16RoundTrip). */
    method SetReg16(rr: Reg16, v: word) returns (r: word)
      requires Shape()
      modifies GPR
      ensures r == v && GPR[..] == WithReg16(old(GPR[..]), rr, v)
    {
      GPR[PairIndex(rr)] := Hi(v);
      GPR[PairIndex(rr) + 1] := Lo(v);
      r := v;
    }

    /** get_flag */
    function GetFlag(f: GbAlu.Flag): bool
      requires Shape()
      reads GPR
    {
      GbAlu.GetFlag(GPR[1], f)
    }

    /** set_flag: only bit f+4 of F changes (GbAlu.SetFlag). */
    method SetFlag(f: GbAlu.Flag, b: bool)
      requires Shape()
      modifies GPR
      ensures GPR[..] == old(GPR[..])[1 := GbAlu.SetFlag(old(GPR[1]), f, b)]
      ensures GetFlag(f) == b
    {
      GPR[1] := GbAlu.SetFlag(GPR[1], f, b);
    }

    /** requestInterrupt: sets the interrupt's bit in IF, nothing else. */
    method RequestInterrupt(i: Interrupt)
      requires Shape()
      modifies IO
      ensures IO[..] == old(IO[..])[R_IF := old(IO[R_IF]) | InterruptMask(i)]
    {
      IO[R_IF] := IO[R_IF] | InterruptMask(i);
    }
  }
}
