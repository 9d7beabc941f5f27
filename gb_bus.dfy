// The address decoding of gb/cpu.c: readAddr and writeAddr over the areas of the 16-bit
// address space, with WRAM and VRAM banking, the PPU locks, the I/O registers' write rules
// and the colour-RAM index auto-increment.

module GbBus {
  import opened Bits
  import opened GbCart
  import GbMbc
  import opened GbState
  import GbTimer
  import GbDisplay

  /** The areas readAddr and writeAddr tell apart. */
  datatype Area =
    | RomBank0 | RomBankN | VideoRam | ExternalRam | WorkRamBank0 | WorkRamBankN
    | EchoRam | ObjectRam | Unusable | IoRegisters | HighRam | InterruptEnable

  /** The first and last address of each area (the MEM_ADDR table). */
  function AreaStart(a: Area): nat
  {
    match a
    case RomBank0 => 0x0000
    case RomBankN => 0x4000
    case VideoRam => 0x8000
    case ExternalRam => 0xA000
    case WorkRamBank0 => 0xC000
    case WorkRamBankN => 0xD000
    case EchoRam => 0xE000
    case ObjectRam => 0xFE00
    case Unusable => 0xFEA0
    case IoRegisters => 0xFF00
    case HighRam => 0xFF80
    case InterruptEnable => 0xFFFF
  }

  function AreaEnd(a: Area): nat
  {
    match a
    case RomBank0 => 0x3FFF
    case RomBankN => 0x7FFF
    case VideoRam => 0x9FFF
    case ExternalRam => 0xBFFF
    case WorkRamBank0 => 0xCFFF
    case WorkRamBankN => 0xDFFF
    case EchoRam => 0xFDFF
    case ObjectRam => 0xFE9F
    case Unusable => 0xFEFF
    case IoRegisters => 0xFF7F
    case HighRam => 0xFFFE
    case InterruptEnable => 0xFFFF
  }

  /** The area an address falls in: every address lies in exactly the area whose range holds it. */
  function AreaOf(addr: word): (a: Area)
    ensures AreaStart(a) <= WordNat(addr) <= AreaEnd(a)
  {
    var n := WordNat(addr);
    if n <= 0x3FFF then RomBank0
    else if n <= 0x7FFF then RomBankN
    else if n <= 0x9FFF then VideoRam
    else if n <= 0xBFFF then ExternalRam
    else if n <= 0xCFFF then WorkRamBank0
    else if n <= 0xDFFF then WorkRamBankN
    else if n <= 0xFDFF then EchoRam
    else if n <= 0xFE9F then ObjectRam
    else if n <= 0xFEFF then Unusable
    else if n <= 0xFF7F then IoRegisters
    else if n <= 0xFFFE then HighRam
    else InterruptEnable
  }

  /** The areas do not overlap: an address in an area's range is decoded as that area. */
  lemma AreasPartition(addr: word, a: Area)
    requires AreaStart(a) <= WordNat(addr) <= AreaEnd(a)
    ensures AreaOf(addr) == a
  {
  }

  /** The index into `wram` of a work-RAM or echo address: C000-CFFF is bank 0, D000-DFFF the
   *  selected bank, and E000-FDFF mirrors the first 0x1E00 bytes of `wram` whatever bank is
   *  selected. */
  function WramIndex(bank: byte, n: nat): (i: nat)
    requires 0xC000 <= n <= 0xFDFF
    ensures n < 0xD000 ==> i == n - 0xC000
    ensures 0xD000 <= n < 0xE000 ==> i / 0x1000 == ByteNat(bank) && i % 0x1000 == n - 0xD000
    ensures 0xE000 <= n ==> i == n - 0xE000
    ensures bank <= 1 ==> i < 0x2000
    ensures bank <= 7 ==> i < 0x8000
  {
    ByteNatMonotone(bank, 7);
    ByteNatMonotone(bank, 1);
    if n < 0xD000 then n - 0xC000
    else if n < 0xE000 then ByteNat(bank) * 0x1000 + (n - 0xD000)
    else n - 0xE000
  }

  /** A selected bank within the allocation keeps every work-RAM index inside `wram`. */
  lemma WramIndexInBounds(bank: byte, n: nat, size: nat)
    requires 0xC000 <= n <= 0xFDFF && size >= 0x2000 && (ByteNat(bank) + 1) * 0x1000 <= size
    ensures WramIndex(bank, n) < size
  {
  }

  /** The echo area reads bank 0 for E000-EFFF but bank 1 for F000-FDFF, not the selected bank. */
  lemma EchoMirrors(bank: byte, k: nat)
    requires k < 0x1E00
    ensures k < 0x1000 ==> WramIndex(bank, 0xE000 + k) == WramIndex(bank, 0xC000 + k)
    ensures 0x1000 <= k ==> WramIndex(bank, 0xE000 + k) == WramIndex(1, 0xC000 + k)
  {
  }

  /** The index into `vram` of a video-RAM address: 8 KiB per bank. */
  function VramIndex(bank: byte, n: nat): (i: nat)
    requires 0x8000 <= n <= 0x9FFF
    ensures i / 0x2000 == ByteNat(bank) && i % 0x2000 == n - 0x8000
    ensures bank == 0 ==> i < 0x2000
    ensures bank <= 1 ==> i < 0x4000
  {
    ByteNatMonotone(bank, 1);
    ByteNat(bank) * 0x2000 + (n - 0x8000)
  }

  /** The registers readAddr brings up to date with syncTimer before reading. */
  predicate TimerRegister(reg: nat)
  {
    reg == R_DIV || reg == R_TIMA || reg == R_TMA || reg == R_TAC
  }

  /** The addresses of DIV, TIMA, TMA and TAC, whose reads sync the timer first. */
  predicate TimerAddress(addr: word)
  {
    AreaOf(addr) == IoRegisters && TimerRegister(WordNat(addr) - 0xFF00)
  }

  /** A colour RAM byte, or 0xFF where the mode allocated none (DMG: the C code would
   *  dereference NULL). */
  function ColorRamByte(cram: array?<byte>, index: byte): byte
    reads cram
  {
    if cram != null && ByteNat(index) < cram.Length then cram[index] else 0xFF
  }

  /** What readAddr returns once the timer is synced. */
  function Peek(gb: GB, addr: word): (b: byte)
    requires gb.Shape() && gb.BanksOk()
    reads gb.IO, gb.hram, gb.OAM, gb.wram, gb.vram, gb.bgColorRAM, gb.spriteColorRAM
    reads gb`IE, gb`mbc, gb`lockVRAM, gb`lockOAM, gb`lockPalettes, gb`doingDMA
    reads gb`selectedWRAMBank, gb`selectedVRAMBank, gb`currentBackgroundCRAMIndex, gb`currentSpriteCRAMIndex
    reads GbMbc.Repr(gb.mbc)
    ensures AreaOf(addr) == VideoRam && gb.lockVRAM ==> b == 0xFF
    ensures AreaOf(addr) == ObjectRam && (gb.lockOAM || gb.doingDMA) ==> b == 0xFF
    ensures AreaOf(addr) == Unusable ==> b == 0xFF
    ensures var reg := WordNat(addr) - 0xFF00;
            AreaOf(addr) == IoRegisters && gb.lockPalettes && (reg == R_BCPS || reg == R_BCPD || reg == R_OCPS || reg == R_OCPD) ==>
              b == 0xFF
  {
    if AreaOf(addr) == ObjectRam then
      (if gb.lockOAM || gb.doingDMA then 0xFF else gb.OAM[WordNat(addr) - 0xFE00])
    else PeekOutsideOAM(gb, addr)
  }

  /** The state Peek reads at addr is the same as at the earlier state. */
  twostate predicate PeekFrame(gb: GB, addr: word)
    requires old(gb.Shape() && gb.BanksOk()) && gb.Shape() && gb.BanksOk()
    reads gb, gb.IO, gb.hram, gb.OAM, gb.wram, gb.vram, gb.bgColorRAM, gb.spriteColorRAM, GbMbc.Repr(gb.mbc)
    ensures PeekFrame(gb, addr) ==> Peek(gb, addr) == old(Peek(gb, addr))
  {
    unchanged(gb.IO, gb.hram, gb.OAM, gb.wram, gb.vram) && (gb.bgColorRAM != null ==> unchanged(gb.bgColorRAM, gb.spriteColorRAM)) &&
    unchanged(gb`IE, gb`mbc, gb`lockVRAM, gb`lockOAM, gb`lockPalettes, gb`doingDMA, gb`selectedWRAMBank, gb`selectedVRAMBank) &&
    unchanged(gb`currentBackgroundCRAMIndex, gb`currentSpriteCRAMIndex) && unchanged(GbMbc.Repr(gb.mbc))
  }

  /** readAddr on every area but OAM (which it does not read). */
  function PeekOutsideOAM(gb: GB, addr: word): byte
    requires gb.Shape() && gb.BanksOk() && AreaOf(addr) != ObjectRam
    reads gb.IO, gb.hram, gb.wram, gb.vram, gb.bgColorRAM, gb.spriteColorRAM
    reads gb`IE, gb`mbc, gb`lockVRAM, gb`lockPalettes
    reads gb`selectedWRAMBank, gb`selectedVRAMBank, gb`currentBackgroundCRAMIndex, gb`currentSpriteCRAMIndex
    reads GbMbc.Repr(gb.mbc)
  {
    var n := WordNat(addr);
    if n <= 0xDFFF then PeekBelowEcho(gb, addr)
    else
      match AreaOf(addr)
      case EchoRam => gb.wram[WramIndex(gb.selectedWRAMBank, n)]
      case IoRegisters => PeekIO(gb, n - 0xFF00)
      case HighRam => gb.hram[n - 0xFF80]
      case InterruptEnable => gb.IE
      case _ => 0xFF
  }

  /** readAddr on the cartridge, VRAM and work RAM (0000-DFFF). */
  function PeekBelowEcho(gb: GB, addr: word): byte
    requires gb.Shape() && gb.BanksOk() && WordNat(addr) <= 0xDFFF
    reads gb.wram, gb.vram, gb`mbc, gb`lockVRAM, gb`selectedWRAMBank, gb`selectedVRAMBank
    reads gb`currentBackgroundCRAMIndex, gb`currentSpriteCRAMIndex
    reads GbMbc.Repr(gb.mbc)
  {
    var n := WordNat(addr);
    match AreaOf(addr)
    case RomBank0 =>
      if gb.mbc.NoMbc? then RomByte(gb.cart.rom, n) else GbMbc.ReadROM_N0(gb.mbc, gb.cart.rom, addr)
    case RomBankN =>
      if gb.mbc.NoMbc? then RomByte(gb.cart.rom, n) else GbMbc.ReadROM_NN(gb.mbc, gb.cart.rom, addr - 0x4000)
    case VideoRam =>
      if gb.lockVRAM then 0xFF else gb.vram[VramIndex(gb.selectedVRAMBank, n)]
    case ExternalRam => GbMbc.ReadExternalRAM(gb.mbc, addr - 0xA000)
    case WorkRamBank0 => gb.wram[WramIndex(gb.selectedWRAMBank, n)]
    case WorkRamBankN => gb.wram[WramIndex(gb.selectedWRAMBank, n)]
  }

  /** The I/O part of readAddr: the colour palettes read 0xFF while the PPU locks them. */
  function PeekIO(gb: GB, reg: nat): byte
    requires gb.Shape() && reg < 0x80
    reads gb.IO, gb.bgColorRAM, gb.spriteColorRAM, gb`lockPalettes
    reads gb`currentBackgroundCRAMIndex, gb`currentSpriteCRAMIndex
  {
    if reg == R_BCPD then
      (if gb.lockPalettes then 0xFF else ColorRamByte(gb.bgColorRAM, gb.currentBackgroundCRAMIndex))
    else if reg == R_OCPD then
      (if gb.lockPalettes then 0xFF else ColorRamByte(gb.spriteColorRAM, gb.currentSpriteCRAMIndex))
    else if (reg == R_BCPS || reg == R_OCPS) && gb.lockPalettes then 0xFF
    else gb.IO[reg]
  }

  /** readAddr: the timer registers are synced first, then the byte is read. */
  method ReadAddr(gb: GB, addr: word) returns (b: byte)
    requires gb.Shape() && gb.BanksOk() && gb.TimerOk()
    modifies gb.IO, gb`lastDIVSync, gb`lastTIMASync
    ensures gb.TimerOk()
    ensures var synced := AreaOf(addr) == IoRegisters && TimerRegister(WordNat(addr) - 0xFF00);
            gb.IO[..] == (if synced then GbTimer.SyncedIO(old(gb.IO[..]), gb.clock, old(gb.lastDIVSync), old(gb.lastTIMASync))
                          else old(gb.IO[..]))
    ensures b == Peek(gb, addr)
    ensures !TimerAddress(addr) ==> b == old(Peek(gb, addr)) && unchanged(gb.IO)
  {
    if AreaOf(addr) == IoRegisters && TimerRegister(WordNat(addr) - 0xFF00) {
      GbTimer.SyncTimer(gb);
    }
    b := Peek(gb, addr);
  }

  // ---------------------------------------------------------------------------------------
  // writeAddr, I/O registers

  /** STAT as a write leaves it: bits 0-2 are read-only, bit 7 always reads 1, bits 3-6 come
   *  from the written byte. */
  function StatWrite(stat: byte, b: byte): (r: byte)
    ensures r & 0x07 == stat & 0x07
    ensures r & 0x78 == b & 0x78
    ensures r & 0x80 == 0x80
  {
    ((b | 0x80) & !0x07) | (stat & 0x07)
  }

  /** KEY1 as a write leaves it: only the prepare-switch bit 0 is writable. */
  function Key1Write(key1: byte, b: byte): (r: byte)
    ensures r & 0x01 == b & 0x01
    ensures r & 0xFE == key1 & 0xFE
  {
    (key1 & !1) | (b & 1)
  }

  /** P1 as a write leaves it before the buttons are filled in: bits 6-7 set, bits 4-5 from
   *  the byte, the lower nibble kept. */
  function JoypadWrite(p1: byte, b: byte): (r: byte)
    ensures r & 0xC0 == 0xC0 && r & 0x30 == b & 0x30 && r & 0x0F == p1 & 0x0F
  {
    ((b | 0xC0) & 0xF0) | (p1 & 0xF)
  }

  /** The selection mode bits 4-5 of a P1 write name, in the JOYPAD_SELECT order. */
  function SelectOf(b: byte): (m: JoypadSelect)
    ensures m == SelectDirectionAction <==> b & 0x30 == 0x00
    ensures m == SelectAction <==> b & 0x30 == 0x10
    ensures m == SelectDirection <==> b & 0x30 == 0x20
    ensures m == SelectNone <==> b & 0x30 == 0x30
  {
    var s := (b >> 4) & 3;
    if s == 0 then SelectDirectionAction
    else if s == 1 then SelectAction
    else if s == 2 then SelectDirection
    else SelectNone
  }

  /** The WRAM bank an SVBK write selects: bits 0-2, bank 0 meaning bank 1. */
  function WramBankOf(b: byte): (bank: byte)
    ensures 1 <= bank <= 7
    ensures b & 7 != 0 ==> bank == b & 7
  {
    if b & 7 == 0 then 1 else b & 7
  }

  /** A colour-RAM index after an auto-increment: the next byte, wrapping at 64. */
  function NextCramIndex(i: byte): (r: byte)
    requires i < 0x40
    ensures r < 0x40
    ensures ByteNat(r) == (ByteNat(i) + 1) % 0x40
  {
    if i + 1 >= 0x40 then 0 else i + 1
  }

  /** The colour-RAM index after a palette-data write: auto-incremented when bit 7 of the
   *  palette specification register is set, kept otherwise. */
  function CramIndexAfter(spec: byte, i: byte): (r: byte)
    requires i < 0x40
    ensures r < 0x40
  {
    if Bit(spec, 7) then NextCramIndex(i) else i
  }

  /** The clock bit the TAC glitch looks at for a TAC value: half the period, as the C code
   *  computes it after storing the period in a uint8_t, so that 1024 and 256 become 0. */
  function GlitchHalf(tac: byte): (h: nat)
    ensures h == (GbTimer.TimaPeriod(tac) % 256) / 2
  {
    var f := tac & 3;
    if f == 1 then 8 else if f == 2 then 32 else 0
  }

  /** `(clock & 0xFFFF) & h != 0` for h one of 0, 8 and 32. */
  predicate ClockBit(clock: nat, h: nat)
    requires h == 0 || h == 8 || h == 32
  {
    h != 0 && (clock % 0x10000 / h) % 2 == 1
  }

  /** Whether a TAC write increments TIMA: the enable bit was set and the watched clock bit
   *  falls (disabled now, or the new watched bit is clear). */
  function TacGlitch(oldTAC: byte, newTAC: byte, clock: nat): (g: bool)
    ensures g ==> GbTimer.TimerEnabled(oldTAC)
    ensures oldTAC & 3 == 0 || oldTAC & 3 == 3 ==> !g
  {
    if !GbTimer.TimerEnabled(oldTAC) then false
    else if !GbTimer.TimerEnabled(newTAC) then ClockBit(clock, GlitchHalf(oldTAC))
    else ClockBit(clock, GlitchHalf(oldTAC)) && !ClockBit(clock, GlitchHalf(newTAC))
  }

  /** The clock bit the TAC glitch is meant to watch: half the period (512, 8, 32 or 128). */
  function GlitchHalfIntended(tac: byte): (h: nat)
    ensures 2 * h == GbTimer.TimaPeriod(tac)
    ensures tac & 3 == 1 || tac & 3 == 2 ==> h == GlitchHalf(tac)
  {
    var f := tac & 3;
    if f == 0 then 512 else if f == 1 then 8 else if f == 2 then 32 else 128
  }

  /** The signal the timer's edge detector watches: the enable bit and the watched bit of the
   *  16-bit system clock. */
  predicate Watched(tac: byte, clock: nat)
  {
    GbTimer.TimerEnabled(tac) && (clock % 0x10000 / GlitchHalfIntended(tac)) % 2 == 1
  }

  /** The TAC glitch with the full periods: the same nested test as TacGlitch, on half the
   *  period itself rather than on the period truncated to a byte. */
  function TacGlitchIntended(oldTAC: byte, newTAC: byte, clock: nat): (g: bool)
    ensures g <==> Watched(oldTAC, clock) && !Watched(newTAC, clock)
  {
    var watchedOld := (clock % 0x10000 / GlitchHalfIntended(oldTAC)) % 2 == 1;
    var watchedNew := (clock % 0x10000 / GlitchHalfIntended(newTAC)) % 2 == 1;
    if !GbTimer.TimerEnabled(oldTAC) then false
    else if !GbTimer.TimerEnabled(newTAC) then watchedOld
    else watchedOld && !watchedNew
  }

  /** The two versions agree whenever neither TAC selects the 1024 or the 256 period. */
  lemma TacGlitchVersionsCompared(oldTAC: byte, newTAC: byte, clock: nat)
    requires oldTAC & 3 == 1 || oldTAC & 3 == 2
    requires !GbTimer.TimerEnabled(newTAC) || newTAC & 3 == 1 || newTAC & 3 == 2
    ensures TacGlitch(oldTAC, newTAC, clock) == TacGlitchIntended(oldTAC, newTAC, clock)
  {
  }

  /** Disabling a timer that runs at 4096 Hz while clock bit 9 is set is a falling edge, so
   *  TIMA should count once; as written the truncated period watches no bit and it does not. */
  lemma TacGlitchCounterexample()
    ensures !TacGlitch(0xFC, 0x00 | 0xF8, 0x200)
    ensures TacGlitchIntended(0xFC, 0x00 | 0xF8, 0x200)
  {
  }

  /** The HDMA request an HDMA5 write describes: source from HDMA1-2 with the low nibble
   *  cleared, destination from HDMA3-4 folded into VRAM, and the length in 16-byte blocks. */
  datatype HdmaRequest = HdmaRequest(hblank: bool, source: word, dest: word, blocks: nat)

  function HdmaRequestOf(io: seq<byte>, b: byte): (r: HdmaRequest)
    requires |io| == 0x80
    ensures r.source & 0xF == 0 && Hi(r.source) == io[R_HDMA1]
    ensures 0x8000 <= WordNat(r.dest) <= 0x9FF0 && r.dest & 0xF == 0
    ensures 1 <= r.blocks <= 0x80
    ensures r.hblank <==> b >= 0x80
  {
    var source := Join(io[R_HDMA1], io[R_HDMA2] & !0xF);
    var dest := (Join(io[R_HDMA3], io[R_HDMA4]) & 0x1FF0) | 0x8000;
    HdmaRequest(b >> 7 == 1, source, dest, ByteNat(b & 0x7F) + 1)
  }

  /** A write to DIV, TIMA, TMA or TAC. The timer is synced to the clock first; DIV is reset
   *  (a reset with DIV at 1 and the timer running increments TIMA); TAC keeps bits 3-7 set and
   *  may glitch TIMA; TIMA and TMA take the byte. */
  twostate predicate TimerWritten(gb: GB, reg: nat, b: byte)
    requires gb.Shape() && old(gb.TimerOk()) && TimerRegister(reg)
    reads gb, gb.IO
  {
    var clock := old(gb.clock);
    var io := GbTimer.SyncedIO(old(gb.IO[..]), clock, old(gb.lastDIVSync), old(gb.lastTIMASync));
    gb.lastDIVSync == GbTimer.DivSyncPoint(clock, old(gb.lastDIVSync)) &&
    gb.lastTIMASync == GbTimer.TimaSyncPoint(old(gb.IO[R_TAC]), clock, old(gb.lastTIMASync)) &&
    gb.IO[..] ==
      if reg == R_DIV then
        (if io[R_DIV] == 1 && GbTimer.TimerEnabled(io[R_TAC]) then GbTimer.IncTima(io[R_DIV := 0])
         else io[R_DIV := 0])
      else if reg == R_TAC then
        (if TacGlitch(io[R_TAC], b | 0xF8, clock) then GbTimer.IncTima(io[R_TAC := b | 0xF8])
         else io[R_TAC := b | 0xF8])
      else io[reg := b]
  }

  /** The write to DIV, TIMA, TMA or TAC. */
  method WriteTimerRegister(gb: GB, reg: nat, b: byte)
    requires gb.Shape() && gb.TimerOk() && TimerRegister(reg)
    modifies gb.IO, gb`lastDIVSync, gb`lastTIMASync
    ensures gb.TimerOk() && TimerWritten(gb, reg, b)
  {
    GbTimer.SyncTimer(gb);
    if reg == R_DIV {
      if gb.IO[R_DIV] == 1 && (gb.IO[R_TAC] >> 2) & 1 == 1 {
        gb.IO[R_DIV] := 0;
        GbTimer.IncrementTIMA(gb);
        return;
      }
      gb.IO[R_DIV] := 0;
    } else if reg == R_TAC {
      var oldTAC := gb.IO[R_TAC];
      var newTAC := b | 0xF8;
      gb.IO[R_TAC] := newTAC;
      if TacGlitch(oldTAC, newTAC, gb.clock) {
        GbTimer.IncrementTIMA(gb);
      }
    } else {
      gb.IO[reg] := b;
    }
  }

  /** A write to P1: the selection bits are stored and the lower nibble shows the buttons of
   *  the selected mode. */
  twostate predicate JoypadWritten(gb: GB, b: byte)
    requires gb.Shape()
    reads gb, gb.IO
  {
    gb.joypadSelectedMode == SelectOf(b) &&
    gb.IO[..] == old(gb.IO[..])[R_P1_JOYP := (JoypadWrite(old(gb.IO[R_P1_JOYP]), b) & 0xF0) |
                   GbTimer.JoypadNibble(SelectOf(b), gb.joypadDirectionBuffer, gb.joypadActionBuffer)]
  }

  /** The write to P1. */
  method WriteJoypad(gb: GB, b: byte)
    requires gb.Shape()
    modifies gb.IO, gb`joypadSelectedMode
    ensures JoypadWritten(gb, b)
  {
    var p1 := JoypadWrite(gb.IO[R_P1_JOYP], b);
    var selected := SelectOf(p1);
    assert selected == SelectOf(b);
    gb.joypadSelectedMode := selected;
    gb.IO[R_P1_JOYP] := p1;
    GbTimer.UpdateJoypadRegBuffer(gb, selected);
  }

  /** A write to SVBK or VBK: on CGB it selects the WRAM bank (1-7) or the VRAM bank (0-1) and
   *  ORs the bank number into the register; on DMG it is ignored. */
  twostate predicate BankSelected(gb: GB, reg: nat, b: byte)
    requires gb.Shape() && (reg == R_SVBK || reg == R_VBK)
    reads gb, gb.IO
  {
    (gb.emuMode == EmuDmg ==>
       gb.IO[..] == old(gb.IO[..]) &&
       gb.selectedWRAMBank == old(gb.selectedWRAMBank) && gb.selectedVRAMBank == old(gb.selectedVRAMBank)) &&
    (gb.emuMode == EmuCgb && reg == R_SVBK ==>
       gb.selectedWRAMBank == WramBankOf(b) && gb.selectedVRAMBank == old(gb.selectedVRAMBank) &&
       gb.IO[..] == old(gb.IO[..])[R_SVBK := old(gb.IO[R_SVBK]) | WramBankOf(b)]) &&
    (gb.emuMode == EmuCgb && reg == R_VBK ==>
       gb.selectedVRAMBank == b & 1 && gb.selectedWRAMBank == old(gb.selectedWRAMBank) &&
       gb.IO[..] == old(gb.IO[..])[R_VBK := old(gb.IO[R_VBK]) | (b & 1)])
  }

  /** The writes to SVBK and VBK. */
  method WriteBankSelect(gb: GB, reg: nat, b: byte)
    requires gb.Shape() && gb.BanksOk() && (reg == R_SVBK || reg == R_VBK)
    modifies gb.IO, gb`selectedWRAMBank, gb`selectedVRAMBank
    ensures gb.BanksOk() && BankSelected(gb, reg, b)
  {
    if gb.emuMode != EmuCgb {
      return;
    }
    if reg == R_SVBK {
      var bank := WramBankOf(b);
      gb.selectedWRAMBank := bank;
      gb.IO[R_SVBK] := gb.IO[R_SVBK] | bank;
    } else {
      var bank := b & 1;
      gb.selectedVRAMBank := bank;
      gb.IO[R_VBK] := gb.IO[R_VBK] | bank;
    }
  }

  /** A write to BCPD: on CGB, with the palettes unlocked, the byte goes to the background
   *  colour RAM at the current index and to the register; the index then auto-increments
   *  when BCPS bit 7 is set, and that increment happens even while the palettes are locked. */
  twostate predicate BackgroundPaletteWritten(gb: GB, b: byte)
    requires gb.Shape() && old(gb.BanksOk())
    reads gb, gb.IO, gb.bgColorRAM
  {
    (gb.emuMode == EmuDmg ==>
       gb.IO[..] == old(gb.IO[..]) && gb.currentBackgroundCRAMIndex == old(gb.currentBackgroundCRAMIndex)) &&
    (gb.emuMode == EmuCgb ==>
       gb.currentBackgroundCRAMIndex == CramIndexAfter(old(gb.IO[R_BCPS]), old(gb.currentBackgroundCRAMIndex))) &&
    (gb.emuMode == EmuCgb && gb.lockPalettes ==>
       gb.IO[..] == old(gb.IO[..]) && gb.bgColorRAM[..] == old(gb.bgColorRAM[..])) &&
    (gb.emuMode == EmuCgb && !gb.lockPalettes ==>
       gb.IO[..] == old(gb.IO[..])[R_BCPD := b] &&
       gb.bgColorRAM[..] == old(gb.bgColorRAM[..])[old(gb.currentBackgroundCRAMIndex) := b])
  }

  /** The write to BCPD. */
  method WriteBackgroundPaletteData(gb: GB, b: byte)
    requires gb.Shape() && gb.BanksOk()
    modifies gb.IO, gb.bgColorRAM, gb`currentBackgroundCRAMIndex
    ensures gb.BanksOk() && BackgroundPaletteWritten(gb, b)
  {
    if gb.emuMode != EmuCgb {
      return;
    }
    assert gb.bgColorRAM != null && gb.bgColorRAM.Length == 0x40;
    if gb.lockPalettes {
      gb.currentBackgroundCRAMIndex := CramIndexAfter(gb.IO[R_BCPS], gb.currentBackgroundCRAMIndex);
      return;
    }
    var index := gb.currentBackgroundCRAMIndex;
    gb.bgColorRAM[index] := b;
    assert gb.bgColorRAM[..] == old(gb.bgColorRAM[..])[index := b];
    gb.currentBackgroundCRAMIndex := CramIndexAfter(gb.IO[R_BCPS], index);
    gb.IO[R_BCPD] := b;
  }

  /** A write to OCPD, the sprite-palette twin of BCPD. */
  twostate predicate SpritePaletteWritten(gb: GB, b: byte)
    requires gb.Shape() && old(gb.BanksOk())
    reads gb, gb.IO, gb.spriteColorRAM
  {
    (gb.emuMode == EmuDmg ==>
       gb.IO[..] == old(gb.IO[..]) && gb.currentSpriteCRAMIndex == old(gb.currentSpriteCRAMIndex)) &&
    (gb.emuMode == EmuCgb ==>
       gb.currentSpriteCRAMIndex == CramIndexAfter(old(gb.IO[R_OCPS]), old(gb.currentSpriteCRAMIndex))) &&
    (gb.emuMode == EmuCgb && gb.lockPalettes ==>
       gb.IO[..] == old(gb.IO[..]) && gb.spriteColorRAM[..] == old(gb.spriteColorRAM[..])) &&
    (gb.emuMode == EmuCgb && !gb.lockPalettes ==>
       gb.IO[..] == old(gb.IO[..])[R_OCPD := b] &&
       gb.spriteColorRAM[..] == old(gb.spriteColorRAM[..])[old(gb.currentSpriteCRAMIndex) := b])
  }

  /** The write to OCPD. */
  method WriteSpritePaletteData(gb: GB, b: byte)
    requires gb.Shape() && gb.BanksOk()
    modifies gb.IO, gb.spriteColorRAM, gb`currentSpriteCRAMIndex
    ensures gb.BanksOk() && SpritePaletteWritten(gb, b)
  {
    if gb.emuMode != EmuCgb {
      return;
    }
    assert gb.spriteColorRAM != null && gb.spriteColorRAM.Length == 0x40;
    if gb.lockPalettes {
      gb.currentSpriteCRAMIndex := CramIndexAfter(gb.IO[R_OCPS], gb.currentSpriteCRAMIndex);
      return;
    }
    var index := gb.currentSpriteCRAMIndex;
    gb.spriteColorRAM[index] := b;
    assert gb.spriteColorRAM[..] == old(gb.spriteColorRAM[..])[index := b];
    gb.currentSpriteCRAMIndex := CramIndexAfter(gb.IO[R_OCPS], index);
    gb.IO[R_OCPD] := b;
  }

  /** A write to BCPS or OCPS: on CGB with the palettes unlocked, the low six bits become the
   *  colour-RAM index and the register keeps the byte with bit 6 set. */
  twostate predicate PaletteIndexWritten(gb: GB, reg: nat, b: byte)
    requires gb.Shape() && (reg == R_BCPS || reg == R_OCPS)
    reads gb, gb.IO
  {
    var applies := gb.emuMode == EmuCgb && !gb.lockPalettes;
    gb.IO[..] == (if applies then old(gb.IO[..])[reg := b | 0x40] else old(gb.IO[..])) &&
    gb.currentBackgroundCRAMIndex ==
      (if applies && reg == R_BCPS then b & 0x3F else old(gb.currentBackgroundCRAMIndex)) &&
    gb.currentSpriteCRAMIndex ==
      (if applies && reg == R_OCPS then b & 0x3F else old(gb.currentSpriteCRAMIndex))
  }

  /** The writes to BCPS and OCPS. */
  method WritePaletteIndex(gb: GB, reg: nat, b: byte)
    requires gb.Shape() && gb.BanksOk() && (reg == R_BCPS || reg == R_OCPS)
    modifies gb.IO, gb`currentBackgroundCRAMIndex, gb`currentSpriteCRAMIndex
    ensures gb.BanksOk() && PaletteIndexWritten(gb, reg, b)
  {
    if gb.emuMode != EmuCgb || gb.lockPalettes {
      return;
    }
    var v := b | 0x40;
    if reg == R_BCPS {
      gb.currentBackgroundCRAMIndex := v & 0x3F;
    } else {
      gb.currentSpriteCRAMIndex := v & 0x3F;
    }
    gb.IO[reg] := v;
  }

  /** A write to LCDC: a change of bit 7 enables or disables the PPU (as enablePPU and
   *  disablePPU do) before the byte is stored; otherwise only the byte is stored. */
  twostate predicate LcdcWritten(gb: GB, b: byte)
    requires gb.Shape()
    reads gb, gb.IO
  {
    var io := old(gb.IO[..]);
    var ppu := old(GbDisplay.PpuOf(gb));
    if Bit(io[R_LCDC], 7) == Bit(b, 7) then
      GbDisplay.PpuOf(gb) == ppu && gb.IO[..] == io[R_LCDC := b]
    else if Bit(b, 7) then
      GbDisplay.PpuOf(gb) == GbDisplay.Enabled(ppu) && gb.IO[..] == GbDisplay.EnabledIO(ppu, io)[R_LCDC := b]
    else
      GbDisplay.PpuOf(gb) == GbDisplay.Disabled(ppu) && gb.IO[..] == GbDisplay.DisabledIO(ppu, io)[R_LCDC := b]
  }

  /** The write to LCDC. */
  method WriteLcdc(gb: GB, b: byte)
    requires gb.Shape()
    modifies gb.IO, gb`ppuMode, gb`cyclesSinceLastMode, gb`lockVRAM, gb`lockOAM, gb`lockPalettes,
             gb`ppuEnabled, gb`skipFrame, gb`cyclesSinceLastFrame
    ensures LcdcWritten(gb, b)
    ensures Bit(old(gb.IO[R_LCDC]), 7) != Bit(b, 7) ==> gb.ppuEnabled == Bit(b, 7)
  {
    var lcdcBit7 := Bit(gb.IO[R_LCDC], 7);
    var byteBit7 := Bit(b, 7);
    if lcdcBit7 != byteBit7 {
      if byteBit7 {
        GbDisplay.EnablePPU(gb);
      } else {
        GbDisplay.DisablePPU(gb);
      }
    }
    gb.IO[R_LCDC] := b;
  }

  /** The registers only CGB mode acts on. */
  predicate CgbRegister(reg: nat)
  {
    reg == R_SVBK || reg == R_VBK || reg == R_BCPD || reg == R_BCPS || reg == R_OCPD || reg == R_OCPS ||
    reg == R_KEY1 || reg == R_HDMA5
  }

  /** A write to an I/O register, register by register as writeAddr's switch does. */
  twostate predicate IoWritten(gb: GB, reg: nat, b: byte)
    requires gb.Shape() && old(gb.TimerOk() && gb.BanksOk()) && reg < 0x80
    reads gb, gb.IO, gb.bgColorRAM, gb.spriteColorRAM
  {
    if TimerRegister(reg) then TimerWritten(gb, reg, b) else OtherWritten(gb, reg, b)
  }

  /** A write to a register other than the timer's. */
  twostate predicate OtherWritten(gb: GB, reg: nat, b: byte)
    requires gb.Shape() && old(gb.BanksOk()) && reg < 0x80 && !TimerRegister(reg)
    reads gb, gb.IO, gb.bgColorRAM, gb.spriteColorRAM
  {
    if CgbRegister(reg) then CgbWritten(gb, reg, b)
    else if reg == R_DMA then DmaWritten(gb, b)
    else DmgWritten(gb, reg, b)
  }

  /** A write to a register only CGB mode acts on: SVBK and VBK select banks, BCPD and OCPD
   *  write colour RAM, BCPS and OCPS set its index, KEY1 takes bit 0, and HDMA5 is stored
   *  unless the write cancels a running HBlank DMA. On DMG the registers are left alone. */
  twostate predicate CgbWritten(gb: GB, reg: nat, b: byte)
    requires gb.Shape() && old(gb.BanksOk()) && CgbRegister(reg)
    reads gb, gb.IO, gb.bgColorRAM, gb.spriteColorRAM
  {
    if reg == R_SVBK || reg == R_VBK then BankSelected(gb, reg, b)
    else if reg == R_BCPD then BackgroundPaletteWritten(gb, b)
    else if reg == R_OCPD then SpritePaletteWritten(gb, b)
    else if reg == R_BCPS || reg == R_OCPS then PaletteIndexWritten(gb, reg, b)
    else if reg == R_KEY1 then
      gb.IO[..] == if gb.emuMode == EmuCgb then old(gb.IO[..])[R_KEY1 := Key1Write(old(gb.IO[R_KEY1]), b)]
                   else old(gb.IO[..])
    else
      gb.IO[..] == if gb.emuMode == EmuCgb && !(gb.doingHDMA && b >> 7 == 0) then old(gb.IO[..])[R_HDMA5 := b]
                   else old(gb.IO[..])
  }

  /** A write to P1, STAT, LCDC, LY or a plain register: P1 and LCDC follow their rules, STAT
   *  keeps its read-only bits, LY ignores the write and a plain register takes the byte. */
  twostate predicate DmgWritten(gb: GB, reg: nat, b: byte)
    requires gb.Shape() && reg < 0x80 && !TimerRegister(reg) && !CgbRegister(reg) && reg != R_DMA
    reads gb, gb.IO
  {
    if reg == R_P1_JOYP then JoypadWritten(gb, b)
    else if reg == R_STAT then gb.IO[..] == old(gb.IO[..])[R_STAT := StatWrite(old(gb.IO[R_STAT]), b)]
    else if reg == R_LCDC then LcdcWritten(gb, b)
    else if reg == R_LY then gb.IO[..] == old(gb.IO[..])
    else gb.IO[..] == old(gb.IO[..])[reg := b]
  }

  /** A write to DMA: the byte is stored and an OAM DMA from its page, clamped to 0xDF, is
   *  scheduled 8 T-cycles ahead. */
  twostate predicate DmaWritten(gb: GB, b: byte)
    requires gb.Shape()
    reads gb, gb.IO
  {
    gb.IO[..] == old(gb.IO[..])[R_DMA := b] && gb.scheduleDMA && gb.scheduled_dmaTimer == 8 &&
    gb.scheduled_dmaSource == Join(if b > 0xDF then 0xDF else b, 0)
  }

  /** The I/O-register part of writeAddr. */
  method WriteIO(gb: GB, reg: nat, b: byte)
    requires gb.Shape() && gb.BanksOk() && gb.TimerOk() && gb.DmaOk() && reg < 0x80
    modifies gb.IO, gb.bgColorRAM, gb.spriteColorRAM
    modifies gb`lastDIVSync, gb`lastTIMASync, gb`joypadSelectedMode, gb`selectedWRAMBank, gb`selectedVRAMBank
    modifies gb`currentBackgroundCRAMIndex, gb`currentSpriteCRAMIndex
    modifies gb`ppuMode, gb`cyclesSinceLastMode, gb`lockVRAM, gb`lockOAM, gb`lockPalettes, gb`ppuEnabled,
             gb`skipFrame, gb`cyclesSinceLastFrame
    modifies gb`scheduled_dmaSource, gb`scheduled_dmaTimer, gb`scheduleDMA
    ensures gb.BanksOk() && gb.TimerOk() && gb.DmaOk()
    ensures IoWritten(gb, reg, b)
  {
    if TimerRegister(reg) {
      WriteTimerRegister(gb, reg, b);
    } else {
      WriteOtherRegister(gb, reg, b);
    }
  }

  /** The writes to every register but the timer's. */
  method WriteOtherRegister(gb: GB, reg: nat, b: byte)
    requires gb.Shape() && gb.BanksOk() && gb.DmaOk() && reg < 0x80 && !TimerRegister(reg)
    modifies gb.IO, gb.bgColorRAM, gb.spriteColorRAM
    modifies gb`joypadSelectedMode, gb`selectedWRAMBank, gb`selectedVRAMBank
    modifies gb`currentBackgroundCRAMIndex, gb`currentSpriteCRAMIndex
    modifies gb`ppuMode, gb`cyclesSinceLastMode, gb`lockVRAM, gb`lockOAM, gb`lockPalettes, gb`ppuEnabled,
             gb`skipFrame, gb`cyclesSinceLastFrame
    modifies gb`scheduled_dmaSource, gb`scheduled_dmaTimer, gb`scheduleDMA
    ensures gb.BanksOk() && gb.DmaOk()
    ensures OtherWritten(gb, reg, b)
  {
    if CgbRegister(reg) {
      var _ := WriteCgbRegister(gb, reg, b);
    } else if reg == R_DMA {
      WriteDma(gb, b);
    } else {
      WriteDmgRegister(gb, reg, b);
    }
  }

  /** The writes to the registers only CGB mode acts on. An HDMA5 write that does not cancel a
   *  running HBlank DMA requests the transfer HdmaRequestOf describes. */
  method WriteCgbRegister(gb: GB, reg: nat, b: byte) returns (ghost request: Option<HdmaRequest>)
    requires gb.Shape() && gb.BanksOk() && CgbRegister(reg)
    modifies gb.IO, gb.bgColorRAM, gb.spriteColorRAM, gb`selectedWRAMBank, gb`selectedVRAMBank
    modifies gb`currentBackgroundCRAMIndex, gb`currentSpriteCRAMIndex
    ensures gb.BanksOk() && CgbWritten(gb, reg, b)
    ensures request == if reg == R_HDMA5 && gb.emuMode == EmuCgb && !(gb.doingHDMA && b >> 7 == 0)
                       then Some(HdmaRequestOf(old(gb.IO[..]), b)) else None
  {
    request := None;
    if reg == R_SVBK || reg == R_VBK {
      WriteBankSelect(gb, reg, b);
    } else if reg == R_BCPD {
      WriteBackgroundPaletteData(gb, b);
    } else if reg == R_OCPD {
      WriteSpritePaletteData(gb, b);
    } else if reg == R_BCPS || reg == R_OCPS {
      WritePaletteIndex(gb, reg, b);
    } else if reg == R_KEY1 {
      if gb.emuMode == EmuCgb {
        gb.IO[R_KEY1] := Key1Write(gb.IO[R_KEY1], b);
      }
    } else {
      // HDMA5: a write with bit 7 clear during an HBlank DMA cancels it and is not stored.
      if gb.emuMode == EmuCgb && !(gb.doingHDMA && b >> 7 == 0) {
        request := Some(HdmaRequestOf(gb.IO[..], b));
        gb.IO[R_HDMA5] := b;
      }
    }
  }

  /** The writes to P1, STAT, LCDC, LY and the plain registers. */
  method WriteDmgRegister(gb: GB, reg: nat, b: byte)
    requires gb.Shape() && reg < 0x80 && !TimerRegister(reg) && !CgbRegister(reg) && reg != R_DMA
    modifies gb.IO, gb`joypadSelectedMode
    modifies gb`ppuMode, gb`cyclesSinceLastMode, gb`lockVRAM, gb`lockOAM, gb`lockPalettes, gb`ppuEnabled,
             gb`skipFrame, gb`cyclesSinceLastFrame
    ensures DmgWritten(gb, reg, b)
  {
    if reg == R_P1_JOYP {
      WriteJoypad(gb, b);
    } else if reg == R_STAT {
      gb.IO[R_STAT] := StatWrite(gb.IO[R_STAT], b);
    } else if reg == R_LCDC {
      WriteLcdc(gb, b);
    } else if reg == R_LY {
    } else {
      gb.IO[reg] := b;
    }
  }

  /** A DMA register write: the byte is stored and an OAM DMA from its page is scheduled. */
  method WriteDma(gb: GB, b: byte)
    requires gb.Shape() && gb.DmaOk()
    modifies gb.IO, gb`scheduled_dmaSource, gb`scheduled_dmaTimer, gb`scheduleDMA
    ensures gb.DmaOk() && DmaWritten(gb, b)
  {
    GbTimer.ScheduleDMATransfer(gb, b);
    gb.IO[R_DMA] := b;
  }

  // ---------------------------------------------------------------------------------------
  // writeAddr, memories

  /** The areas writeAddr stores into directly. */
  /** The I/O register an address in 0xFF00..0xFF7F names. */
  function IoOffset(addr: word): (reg: nat)
    requires AreaOf(addr) == IoRegisters
    ensures reg < 0x80 && reg == WordNat(addr) - 0xFF00
  {
    WordNat(addr) - 0xFF00
  }

  predicate MemoryArea(a: Area)
  {
    a == VideoRam || a == WorkRamBank0 || a == WorkRamBankN || a == EchoRam || a == ObjectRam ||
    a == Unusable || a == HighRam || a == InterruptEnable
  }

  /** Work RAM banks 0 and N and high RAM: the areas where a write is a plain store. */
  predicate PlainRam(a: Area)
  {
    a == WorkRamBank0 || a == WorkRamBankN || a == HighRam
  }

  /** Work RAM and high RAM are `wram` and `hram` with the one byte at addr replaced by b. */
  predicate RamStored(gb: GB, wram: seq<byte>, hram: seq<byte>, addr: word, b: byte)
    reads gb.wram, gb.hram, gb`selectedWRAMBank
  {
    var n := WordNat(addr);
    if AreaOf(addr) == HighRam then
      gb.wram[..] == wram && |hram| == 0x7F && gb.hram[..] == hram[n - 0xFF80 := b]
    else
      PlainRam(AreaOf(addr)) && gb.hram[..] == hram &&
      WramIndex(gb.selectedWRAMBank, n) < |wram| && gb.wram[..] == wram[WramIndex(gb.selectedWRAMBank, n) := b]
  }

  /** Whether the PPU or an OAM DMA currently blocks the CPU's access to an area. */
  predicate Blocked(gb: GB, a: Area)
    reads gb`lockVRAM, gb`lockOAM, gb`doingDMA
  {
    (a == VideoRam && gb.lockVRAM) || (a == ObjectRam && (gb.lockOAM || gb.doingDMA))
  }

  /** The write to VRAM, work RAM, echo RAM, OAM, HRAM, IE or the unusable area. VRAM and OAM
   *  writes are dropped while blocked, the unusable area is read-only, and every other write
   *  reads back. */
  method WriteMemory(gb: GB, addr: word, b: byte)
    requires gb.Shape() && gb.BanksOk() && MemoryArea(AreaOf(addr))
    modifies gb.wram, gb.vram, gb.hram, gb.OAM, gb`IE
    ensures AreaOf(addr) == VideoRam ==>
              gb.vram[..] == if gb.lockVRAM then old(gb.vram[..])
                             else old(gb.vram[..])[VramIndex(gb.selectedVRAMBank, WordNat(addr)) := b]
    ensures AreaOf(addr) == ObjectRam ==>
              gb.OAM[..] == if gb.lockOAM || gb.doingDMA then old(gb.OAM[..])
                            else old(gb.OAM[..])[WordNat(addr) - 0xFE00 := b]
    ensures AreaOf(addr) == HighRam ==> gb.hram[..] == old(gb.hram[..])[WordNat(addr) - 0xFF80 := b]
    ensures AreaOf(addr) == InterruptEnable ==> gb.IE == b
    ensures AreaOf(addr) == WorkRamBank0 || AreaOf(addr) == WorkRamBankN || AreaOf(addr) == EchoRam ==>
              gb.wram[..] == old(gb.wram[..])[WramIndex(gb.selectedWRAMBank, WordNat(addr)) := b]
    ensures AreaOf(addr) != Unusable && !Blocked(gb, AreaOf(addr)) ==> Peek(gb, addr) == b
    ensures AreaOf(addr) == Unusable ==> unchanged(gb, gb.wram, gb.vram, gb.hram, gb.OAM)
    ensures AreaOf(addr) != HighRam ==> gb.hram[..] == old(gb.hram[..])
    ensures AreaOf(addr) == HighRam ==> gb.wram[..] == old(gb.wram[..])
  {
    var area := AreaOf(addr);
    if area == VideoRam {
      WriteVideoRam(gb, addr, b);
    } else if area == ObjectRam {
      WriteObjectRam(gb, addr, b);
    } else if area == HighRam {
      WriteHighRam(gb, addr, b);
    } else if area == InterruptEnable {
      gb.IE := b;
      PeekInterruptEnable(gb, addr);
    } else if area != Unusable {
      WriteWorkRam(gb, addr, b);
    }
  }

  method WriteVideoRam(gb: GB, addr: word, b: byte)
    requires gb.Shape() && gb.BanksOk() && AreaOf(addr) == VideoRam
    modifies gb.vram
    ensures gb.vram[..] == if gb.lockVRAM then old(gb.vram[..])
                           else old(gb.vram[..])[VramIndex(gb.selectedVRAMBank, WordNat(addr)) := b]
    ensures !gb.lockVRAM ==> Peek(gb, addr) == b
  {
    if !gb.lockVRAM {
      var i := VramIndex(gb.selectedVRAMBank, WordNat(addr));
      gb.vram[i] := b;
      assert gb.vram[..] == old(gb.vram[..])[i := b];
    }
  }

  method WriteObjectRam(gb: GB, addr: word, b: byte)
    requires gb.Shape() && gb.BanksOk() && AreaOf(addr) == ObjectRam
    modifies gb.OAM
    ensures gb.OAM[..] == if gb.lockOAM || gb.doingDMA then old(gb.OAM[..])
                          else old(gb.OAM[..])[WordNat(addr) - 0xFE00 := b]
    ensures !(gb.lockOAM || gb.doingDMA) ==> Peek(gb, addr) == b
  {
    if !(gb.lockOAM || gb.doingDMA) {
      var i := WordNat(addr) - 0xFE00;
      gb.OAM[i] := b;
      assert gb.OAM[..] == old(gb.OAM[..])[i := b];
    }
  }

  method WriteHighRam(gb: GB, addr: word, b: byte)
    requires gb.Shape() && gb.BanksOk() && AreaOf(addr) == HighRam
    modifies gb.hram
    ensures gb.hram[..] == old(gb.hram[..])[WordNat(addr) - 0xFF80 := b]
    ensures Peek(gb, addr) == b
  {
    var i := WordNat(addr) - 0xFF80;
    gb.hram[i] := b;
    assert gb.hram[..] == old(gb.hram[..])[i := b];
  }

  method WriteWorkRam(gb: GB, addr: word, b: byte)
    requires gb.Shape() && gb.BanksOk()
    requires AreaOf(addr) == WorkRamBank0 || AreaOf(addr) == WorkRamBankN || AreaOf(addr) == EchoRam
    modifies gb.wram
    ensures gb.wram[..] == old(gb.wram[..])[WramIndex(gb.selectedWRAMBank, WordNat(addr)) := b]
    ensures Peek(gb, addr) == b
  {
    var i := WramIndex(gb.selectedWRAMBank, WordNat(addr));
    gb.wram[i] := b;
    assert gb.wram[..] == old(gb.wram[..])[i := b];
    PeekWorkRam(gb, addr);
  }

  /** Peek on a work-RAM or echo address reads `wram` at WramIndex. */
  lemma PeekWorkRam(gb: GB, addr: word)
    requires gb.Shape() && gb.BanksOk()
    requires AreaOf(addr) == WorkRamBank0 || AreaOf(addr) == WorkRamBankN || AreaOf(addr) == EchoRam
    ensures Peek(gb, addr) == gb.wram[WramIndex(gb.selectedWRAMBank, WordNat(addr))]
  {
  }

  lemma PeekInterruptEnable(gb: GB, addr: word)
    requires gb.Shape() && gb.BanksOk() && AreaOf(addr) == InterruptEnable
    ensures Peek(gb, addr) == gb.IE
  {
    assert WordNat(addr) > 0xDFFF;
    assert PeekOutsideOAM(gb, addr) == gb.IE;
  }

  /** writeAddr. Cartridge areas go to the memory bank controller (external RAM, or a register
   *  write for the ROM area), I/O registers follow their write rules and the memories take
   *  the byte unless blocked. */
  method WriteAddr(gb: GB, addr: word, b: byte)
    requires gb.Valid()
    modifies gb.IO, gb.wram, gb.vram, gb.hram, gb.OAM, gb.bgColorRAM, gb.spriteColorRAM, GbMbc.Repr(gb.mbc)
    modifies gb`IE, gb`lastDIVSync, gb`lastTIMASync, gb`joypadSelectedMode, gb`selectedWRAMBank,
             gb`selectedVRAMBank, gb`currentBackgroundCRAMIndex, gb`currentSpriteCRAMIndex
    modifies gb`ppuMode, gb`cyclesSinceLastMode, gb`lockVRAM, gb`lockOAM, gb`lockPalettes, gb`ppuEnabled,
             gb`skipFrame, gb`cyclesSinceLastFrame
    modifies gb`scheduled_dmaSource, gb`scheduled_dmaTimer, gb`scheduleDMA
    ensures gb.Valid()
    ensures MemoryArea(AreaOf(addr)) && AreaOf(addr) != Unusable && !Blocked(gb, AreaOf(addr)) ==>
              Peek(gb, addr) == b
    ensures AreaOf(addr) == ExternalRam ==>
              GbMbc.Ram(gb.mbc) == GatedWrite(old(GbMbc.Ram(gb.mbc)), old(GbMbc.RamOpen(gb.mbc)),
                                              old(GbMbc.RamBank(gb.mbc)), WordNat(addr) - 0xA000, b)
    ensures AreaOf(addr) == RomBank0 || AreaOf(addr) == RomBankN ==>
              GbMbc.Ram(gb.mbc) == old(GbMbc.Ram(gb.mbc)) && GbMbc.Intercepted(gb.mbc, addr, b)
    ensures AreaOf(addr) == IoRegisters ==> IoWritten(gb, IoOffset(addr), b)
    ensures PlainRam(AreaOf(addr)) ==>
              gb.selectedWRAMBank == old(gb.selectedWRAMBank) && RamStored(gb, old(gb.wram[..]), old(gb.hram[..]), addr, b)
    ensures MemoryArea(AreaOf(addr)) ==> unchanged(gb.IO)
    ensures !MemoryArea(AreaOf(addr)) ==> unchanged(gb.wram, gb.vram, gb.hram, gb.OAM)
  {
    var area := AreaOf(addr);
    if MemoryArea(area) {
      assert area != RomBank0 && area != RomBankN && area != ExternalRam && area != IoRegisters;
      WriteMemoryValid(gb, addr, b);
    } else {
      assert !PlainRam(area);
      WriteRegisters(gb, addr, b);
    }
  }

  /** The part of writeAddr outside memory: the I/O registers and the cartridge. */
  method WriteRegisters(gb: GB, addr: word, b: byte)
    requires gb.Valid() && !MemoryArea(AreaOf(addr))
    modifies gb.IO, gb.bgColorRAM, gb.spriteColorRAM, GbMbc.Repr(gb.mbc)
    modifies gb`lastDIVSync, gb`lastTIMASync, gb`joypadSelectedMode, gb`selectedWRAMBank, gb`selectedVRAMBank
    modifies gb`currentBackgroundCRAMIndex, gb`currentSpriteCRAMIndex
    modifies gb`ppuMode, gb`cyclesSinceLastMode, gb`lockVRAM, gb`lockOAM, gb`lockPalettes, gb`ppuEnabled,
             gb`skipFrame, gb`cyclesSinceLastFrame
    modifies gb`scheduled_dmaSource, gb`scheduled_dmaTimer, gb`scheduleDMA
    ensures gb.Valid()
    ensures AreaOf(addr) == ExternalRam ==>
              GbMbc.Ram(gb.mbc) == GatedWrite(old(GbMbc.Ram(gb.mbc)), old(GbMbc.RamOpen(gb.mbc)),
                                              old(GbMbc.RamBank(gb.mbc)), WordNat(addr) - 0xA000, b)
    ensures AreaOf(addr) == RomBank0 || AreaOf(addr) == RomBankN ==>
              GbMbc.Ram(gb.mbc) == old(GbMbc.Ram(gb.mbc)) && GbMbc.Intercepted(gb.mbc, addr, b)
    ensures AreaOf(addr) == IoRegisters ==> IoWritten(gb, IoOffset(addr), b)
  {
    if AreaOf(addr) == IoRegisters {
      WriteIOValid(gb, IoOffset(addr), b);
    } else {
      WriteCartridge(gb, addr, b);
    }
  }

  /** The cartridge areas of writeAddr: external RAM through the controller's gated RAM, and
   *  the ROM area as a controller register write that leaves the RAM alone. */
  method WriteCartridge(gb: GB, addr: word, b: byte)
    requires gb.Valid()
    requires AreaOf(addr) == ExternalRam || AreaOf(addr) == RomBank0 || AreaOf(addr) == RomBankN
    modifies GbMbc.Repr(gb.mbc)
    ensures gb.Valid()
    ensures AreaOf(addr) == ExternalRam ==>
              GbMbc.Ram(gb.mbc) == GatedWrite(old(GbMbc.Ram(gb.mbc)), old(GbMbc.RamOpen(gb.mbc)),
                                              old(GbMbc.RamBank(gb.mbc)), WordNat(addr) - 0xA000, b)
    ensures AreaOf(addr) != ExternalRam ==>
              GbMbc.Ram(gb.mbc) == old(GbMbc.Ram(gb.mbc)) && GbMbc.Intercepted(gb.mbc, addr, b)
  {
    if AreaOf(addr) == ExternalRam {
      GbMbc.WriteExternalRAM(gb.mbc, addr - 0xA000, b);
    } else {
      GbMbc.InterceptROMWrite(gb.mbc, addr, b);
    }
  }

  /** WriteMemory under the whole state invariant. */
  method WriteMemoryValid(gb: GB, addr: word, b: byte)
    requires gb.Valid() && MemoryArea(AreaOf(addr))
    modifies gb.wram, gb.vram, gb.hram, gb.OAM, gb`IE
    ensures gb.Valid()
    ensures AreaOf(addr) != Unusable && !Blocked(gb, AreaOf(addr)) ==> Peek(gb, addr) == b
    ensures PlainRam(AreaOf(addr)) ==> RamStored(gb, old(gb.wram[..]), old(gb.hram[..]), addr, b)
    ensures gb.selectedWRAMBank == old(gb.selectedWRAMBank) && unchanged(gb.IO)
  {
    WriteMemory(gb, addr, b);
  }

  /** WriteIO under the whole state invariant. */
  method WriteIOValid(gb: GB, reg: nat, b: byte)
    requires gb.Valid() && reg < 0x80
    modifies gb.IO, gb.bgColorRAM, gb.spriteColorRAM
    modifies gb`lastDIVSync, gb`lastTIMASync, gb`joypadSelectedMode, gb`selectedWRAMBank, gb`selectedVRAMBank
    modifies gb`currentBackgroundCRAMIndex, gb`currentSpriteCRAMIndex
    modifies gb`ppuMode, gb`cyclesSinceLastMode, gb`lockVRAM, gb`lockOAM, gb`lockPalettes, gb`ppuEnabled,
             gb`skipFrame, gb`cyclesSinceLastFrame
    modifies gb`scheduled_dmaSource, gb`scheduled_dmaTimer, gb`scheduleDMA
    ensures gb.Valid()
    ensures IoWritten(gb, reg, b)
  {
    WriteIO(gb, reg, b);
    ControllerKept(gb);
  }

  /** A write that leaves the controller's objects alone keeps the state invariant. */
  twostate lemma ControllerKept(gb: GB)
    requires old(gb.Valid()) && gb.BanksOk() && gb.TimerOk() && gb.DmaOk()
    requires gb.mbc == old(gb.mbc) && unchanged(GbMbc.Repr(gb.mbc))
    ensures gb.Valid()
  {
    assert GbMbc.Valid(gb.mbc);
  }
}
