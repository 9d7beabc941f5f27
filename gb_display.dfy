// The STAT register, PPU mode switching and its lock flags, PPU enable / disable, and the pure
// colour and tile-addressing rules of src/display.c.

module GbDisplay {
  import opened Bits
  import opened GbState
  import GbFifo

  /** STAT_UPDATE_TYPE */
  datatype StatUpdate = StatLyLyc | StatSwitchMode(mode: PpuMode)

  /** The STAT interrupt-enable bit for entering a mode (3 for mode 0, 4 for mode 1, 5 for
   *  mode 2); entering mode 3 has no interrupt source. */
  function ModeSource(m: PpuMode): (bit: nat)
    ensures bit < 8
  {
    match m
    case Mode0 => 3
    case Mode1 => 4
    case Mode2 => 5
    case Mode3 => 0
  }

  /** Whether entering mode m requests LCD_STAT, given STAT as it is then. */
  predicate ModeRequests(m: PpuMode, stat: byte)
  {
    m != Mode3 && Bit(stat, ModeSource(m))
  }

  /** STAT after SWITCH_MODE: bits 0-1 replaced by the mode. */
  function SwitchedStat(stat: byte, m: PpuMode): (s: byte)
    ensures s & 0x03 == ModeBits(m) && s & 0xFC == stat & 0xFC
    ensures m != Mode3 ==> (Bit(s, ModeSource(m)) <==> Bit(stat, ModeSource(m)))
  {
    (stat & !0x3) | ModeBits(m)
  }

  /** STAT after the LY=LYC comparison: bit 2 set on a match, cleared otherwise. */
  function ComparedStat(stat: byte, matched: bool): (s: byte)
    ensures Bit(s, 2) == matched && s & !0x04 == stat & !0x04
    ensures Bit(s, 6) == Bit(stat, 6)
  {
    if matched then stat | 0x04 else stat & !0x04
  }

  /** updateSTAT on the I/O registers. */
  function StatStep(io: seq<byte>, u: StatUpdate): (r: seq<byte>)
    requires |io| == 0x80
    ensures |r| == 0x80
    ensures forall k :: 0 <= k < 0x80 && k != R_STAT && k != R_IF ==> r[k] == io[k]
  {
    var matched := io[R_LY] == io[R_LYC];
    var stat := match u
                case StatLyLyc => ComparedStat(io[R_STAT], matched)
                case StatSwitchMode(m) => SwitchedStat(io[R_STAT], m);
    var request := match u
                   case StatLyLyc => matched && Bit(stat, 6)
                   case StatSwitchMode(m) => m != Mode3 && Bit(stat, ModeSource(m));
    var io1 := io[R_STAT := stat];
    if request then io1[R_IF := io1[R_IF] | InterruptMask(IntLcdStat)] else io1
  }

  /** A mode switch writes the mode into STAT bits 0-1 and nothing else of STAT, and requests
   *  LCD_STAT exactly when the mode's enable bit is set. */
  lemma SwitchModeStat(io: seq<byte>, m: PpuMode)
    requires |io| == 0x80
    ensures var r := StatStep(io, StatSwitchMode(m));
            r[R_STAT] & 0x03 == ModeBits(m) && r[R_STAT] & 0xFC == io[R_STAT] & 0xFC &&
            r[R_IF] == (if ModeRequests(m, io[R_STAT]) then io[R_IF] | 0x02 else io[R_IF])
  {
    var s := SwitchedStat(io[R_STAT], m);
  }

  /** The LY=LYC update sets STAT bit 2 exactly when LY equals LYC, changes no other STAT bit, and
   *  requests LCD_STAT only on a match with bit 6 enabled. */
  lemma LyLycStat(io: seq<byte>)
    requires |io| == 0x80
    ensures var r := StatStep(io, StatLyLyc);
            (Bit(r[R_STAT], 2) <==> io[R_LY] == io[R_LYC]) &&
            r[R_STAT] & !0x04 == io[R_STAT] & !0x04 &&
            r[R_IF] == (if io[R_LY] == io[R_LYC] && Bit(io[R_STAT], 6) then io[R_IF] | 0x02 else io[R_IF])
  {
    var s := ComparedStat(io[R_STAT], io[R_LY] == io[R_LYC]);
  }

  /** Switching to a then to b leaves STAT as switching straight to b would, except for the
   *  interrupt requests made on the way. */
  lemma SwitchTwiceStat(io: seq<byte>, a: PpuMode, b: PpuMode)
    requires |io| == 0x80
    ensures StatStep(StatStep(io, StatSwitchMode(a)), StatSwitchMode(b))[R_STAT] ==
            StatStep(io, StatSwitchMode(b))[R_STAT]
  {
    SwitchedTwice(io[R_STAT], a, b);
  }

  lemma SwitchedTwice(stat: byte, a: PpuMode, b: PpuMode)
    ensures SwitchedStat(SwitchedStat(stat, a), b) == SwitchedStat(stat, b)
  {
  }

  /** updateSTAT */
  method UpdateSTAT(gb: GB, u: StatUpdate)
    requires gb.Shape()
    modifies gb.IO
    ensures gb.IO[..] == StatStep(old(gb.IO[..]), u)
  {
    match u
    case StatLyLyc =>
      if gb.IO[R_LY] == gb.IO[R_LYC] {
        gb.IO[R_STAT] := ComparedStat(gb.IO[R_STAT], true);
        if Bit(gb.IO[R_STAT], 6) {
          gb.RequestInterrupt(IntLcdStat);
        }
      } else {
        gb.IO[R_STAT] := ComparedStat(gb.IO[R_STAT], false);
      }
    case StatSwitchMode(m) =>
      gb.IO[R_STAT] := SwitchedStat(gb.IO[R_STAT], m);
      if m != Mode3 && Bit(gb.IO[R_STAT], ModeSource(m)) {
        gb.RequestInterrupt(IntLcdStat);
      }
  }

  /** The lock flags a mode sets: (VRAM, OAM, palettes). */
  datatype Locks = Locks(vram: bool, oam: bool, palettes: bool)

  function LocksFor(m: PpuMode): (l: Locks)
    ensures l.vram == l.palettes == (m == Mode3)
    ensures l.oam == (m == Mode2 || m == Mode3)
  {
    match m
    case Mode2 => Locks(false, true, false)
    case Mode3 => Locks(true, true, true)
    case Mode0 => Locks(false, false, false)
    case Mode1 => Locks(false, false, false)
  }

  /** The lock flags of a GB. */
  function LocksOf(gb: GB): Locks
    reads gb`lockVRAM, gb`lockOAM, gb`lockPalettes
  {
    Locks(gb.lockVRAM, gb.lockOAM, gb.lockPalettes)
  }

  /** switchModePPU: the mode is entered with its cycle counter at 0, its locks and STAT update. */
  method SwitchModePPU(gb: GB, m: PpuMode)
    requires gb.Shape()
    modifies gb.IO, gb`ppuMode, gb`cyclesSinceLastMode, gb`lockVRAM, gb`lockOAM, gb`lockPalettes
    ensures gb.ppuMode == m && gb.cyclesSinceLastMode == 0
    ensures LocksOf(gb) == LocksFor(m)
    ensures gb.IO[..] == StatStep(old(gb.IO[..]), StatSwitchMode(m))
  {
    gb.ppuMode := m;
    gb.cyclesSinceLastMode := 0;
    match m
    case Mode2 =>
      gb.lockOAM := true;
      gb.lockPalettes := false;
      gb.lockVRAM := false;
      UpdateSTAT(gb, StatSwitchMode(Mode2));
    case Mode3 =>
      gb.lockOAM := true;
      gb.lockPalettes := true;
      gb.lockVRAM := true;
      UpdateSTAT(gb, StatSwitchMode(Mode3));
    case Mode0 =>
      gb.lockOAM := false;
      gb.lockPalettes := false;
      gb.lockVRAM := false;
      UpdateSTAT(gb, StatSwitchMode(Mode0));
    case Mode1 =>
      gb.lockOAM := false;
      gb.lockPalettes := false;
      gb.lockVRAM := false;
      UpdateSTAT(gb, StatSwitchMode(Mode1));
  }

  /** The PPU fields enablePPU and disablePPU change. */
  datatype Ppu = Ppu(enabled: bool, mode: PpuMode, locks: Locks, cyclesSinceLastMode: nat, skipFrame: bool,
                     cyclesSinceLastFrame: nat)

  function PpuOf(gb: GB): Ppu
    reads gb`ppuEnabled, gb`ppuMode, gb`lockVRAM, gb`lockOAM, gb`lockPalettes, gb`cyclesSinceLastMode
    reads gb`skipFrame, gb`cyclesSinceLastFrame
  {
    Ppu(gb.ppuEnabled, gb.ppuMode, LocksOf(gb), gb.cyclesSinceLastMode, gb.skipFrame, gb.cyclesSinceLastFrame)
  }

  /** The PPU after enablePPU: a disabled one is on in mode 2 with both counters at 0 and the next
   *  frame skipped. */
  function Enabled(p: Ppu): Ppu
  {
    if p.enabled then p else Ppu(true, Mode2, LocksFor(Mode2), 0, true, 0)
  }

  /** The I/O registers after enablePPU: the mode-2 STAT update when the PPU was off. */
  function EnabledIO(p: Ppu, io: seq<byte>): seq<byte>
    requires |io| == 0x80
  {
    if p.enabled then io else StatStep(io, StatSwitchMode(Mode2))
  }

  /** The PPU after disablePPU: an enabled one is off in mode 0 with its mode counter at 0. */
  function Disabled(p: Ppu): Ppu
  {
    if !p.enabled then p else Ppu(false, Mode0, LocksFor(Mode0), 0, p.skipFrame, p.cyclesSinceLastFrame)
  }

  /** The I/O registers after disablePPU: LY reset and the mode-0 STAT update when the PPU was on. */
  function DisabledIO(p: Ppu, io: seq<byte>): seq<byte>
    requires |io| == 0x80
  {
    if !p.enabled then io else StatStep(io[R_LY := 0], StatSwitchMode(Mode0))
  }

  /** enablePPU: on a disabled PPU, mode 2 is entered, the next frame is skipped and the frame
   *  counter restarts; an enabled PPU is left alone. */
  method EnablePPU(gb: GB)
    requires gb.Shape()
    modifies gb.IO, gb`ppuMode, gb`cyclesSinceLastMode, gb`lockVRAM, gb`lockOAM, gb`lockPalettes,
             gb`ppuEnabled, gb`skipFrame, gb`cyclesSinceLastFrame
    ensures old(gb.ppuEnabled) ==> unchanged(gb) && unchanged(gb.IO)
    ensures !old(gb.ppuEnabled) ==>
              gb.ppuEnabled && gb.skipFrame && gb.cyclesSinceLastFrame == 0 &&
              gb.ppuMode == Mode2 && gb.cyclesSinceLastMode == 0 && LocksOf(gb) == LocksFor(Mode2) &&
              gb.IO[..] == StatStep(old(gb.IO[..]), StatSwitchMode(Mode2))
    ensures PpuOf(gb) == Enabled(old(PpuOf(gb))) && gb.IO[..] == EnabledIO(old(PpuOf(gb)), old(gb.IO[..]))
  {
    if gb.ppuEnabled {
      return;
    }
    gb.ppuEnabled := true;
    SwitchModePPU(gb, Mode2);
    gb.skipFrame := true;
    gb.cyclesSinceLastFrame := 0;
  }

  /** disablePPU: on an enabled PPU, LY is reset to 0 and mode 0 is entered (the warning for
   *  leaving outside V-blank is output only); a disabled PPU is left alone. */
  method DisablePPU(gb: GB)
    requires gb.Shape()
    modifies gb.IO, gb`ppuMode, gb`cyclesSinceLastMode, gb`lockVRAM, gb`lockOAM, gb`lockPalettes,
             gb`ppuEnabled
    ensures !old(gb.ppuEnabled) ==> unchanged(gb) && unchanged(gb.IO)
    ensures old(gb.ppuEnabled) ==>
              !gb.ppuEnabled && gb.ppuMode == Mode0 && gb.cyclesSinceLastMode == 0 &&
              LocksOf(gb) == LocksFor(Mode0) &&
              gb.IO[..] == StatStep(old(gb.IO[..])[R_LY := 0], StatSwitchMode(Mode0))
    ensures PpuOf(gb) == Disabled(old(PpuOf(gb))) && gb.IO[..] == DisabledIO(old(PpuOf(gb)), old(gb.IO[..]))
  {
    if !gb.ppuEnabled {
      return;
    }
    gb.ppuEnabled := false;
    gb.IO[R_LY] := 0;
    SwitchModePPU(gb, Mode0);
  }

  /** toRGB888: a 5-bit channel widened to 8 bits by repeating its top bits. */
  function ToRGB888(v: byte): byte
  {
    (v << 3) | (v >> 2)
  }

  /** For a 5-bit channel the widened value keeps the channel in its top five bits, spans the
   *  whole range (0 stays 0, 31 becomes 0xFF) and preserves order. */
  lemma ToRGB888Widens(v: byte, w: byte)
    requires v < 32 && w < 32
    ensures ToRGB888(v) >> 3 == v
    ensures ToRGB888(v) == 0 <==> v == 0
    ensures v == 31 ==> ToRGB888(v) == 0xFF
    ensures v <= w ==> ToRGB888(v) <= ToRGB888(w)
  {
  }

  /** A colour as three 8-bit channels. */
  datatype Rgb = Rgb(r: byte, g: byte, b: byte)

  /** The grey level a DMG shade number gives. */
  function Shade(id: byte): byte
  {
    if id == 0 then 0xFF else if id == 1 then 0xAA else if id == 2 then 0x55 else if id == 3 then 0x00 else 0x00
  }

  /** The palette register a DMG pixel uses: BGP, or OBP0 / OBP1 for sprites. */
  function PaletteRegister(p: GbFifo.Pixel, isSprite: bool): (k: nat)
    ensures k == R_BGP || k == R_OBP0 || k == R_OBP1
  {
    if !isSprite then R_BGP else if p.colorPalette == 0 then R_OBP0 else R_OBP1
  }

  /** getPixelColor_DMG: the two palette bits for the colour number pick a grey. A colour
   *  number from 4 on shifts every palette bit out (shade 0); past 15 the C shift is undefined
   *  and is given the same result. */
  function PixelColorDMG(io: seq<byte>, p: GbFifo.Pixel, isSprite: bool): Rgb
    requires |io| == 0x80
  {
    var shadeId := if p.colorID < 4 then (io[PaletteRegister(p, isSprite)] >> (ByteNat(p.colorID) * 2)) & 0x03 else 0;
    var shade := Shade(shadeId);
    Rgb(shade, shade, shade)
  }

  /** A DMG pixel is grey (r = g = b), and for the colour numbers 0..3 the palette's two bits
   *  2c+1..2c select white, light grey, dark grey or black. */
  lemma PixelColorDMGIsShade(io: seq<byte>, p: GbFifo.Pixel, isSprite: bool)
    requires |io| == 0x80 && p.colorID < 4
    ensures var c := PixelColorDMG(io, p, isSprite);
            var id := (io[PaletteRegister(p, isSprite)] >> (2 * ByteNat(p.colorID))) & 3;
            c.r == c.g == c.b &&
            c.r == [0xFF, 0xAA, 0x55, 0x00][ByteNat(id)]
  {
  }

  /** Shades get darker with the shade number. */
  lemma ShadeDarkens(a: byte, b: byte)
    requires a < b <= 3
    ensures Shade(b) < Shade(a)
  {
  }

  /** getCurrentFetcherTileData as an offset into VRAM. BG / window tiles take their index from
   *  the tile map in bank 0 and honour LCDC bit 4 ($8000 or $8800 addressing); sprites always
   *  use $8000 addressing, with bit 0 of the index cleared for 8x16 sprites. On CGB, attribute
   *  bit 3 selects VRAM bank 1. */
  function TileDataOffset(mode: EmuMode, lcdc: byte, attributes: byte, sprite: bool, spriteSize: byte,
                          tileIndex: byte): (off: nat)
  {
    var bank := if mode == EmuCgb && Bit(attributes, 3) then 0x2000 else 0;
    if sprite then
      var index := if spriteSize == 1 then tileIndex & 0xFE else tileIndex;
      bank + ByteNat(index) * 16
    else if Bit(lcdc, 4) then bank + ByteNat(tileIndex) * 16
    else if tileIndex < 128 then bank + 0x1000 + ByteNat(tileIndex) * 16
    else bank + 0x800 + (ByteNat(tileIndex) - 128) * 16
  }

  /** The $8800 method is $9000 plus the index read as a signed byte, and every tile's 16 bytes
   *  lie inside the VRAM the mode allocates. */
  lemma TileDataAddressing(mode: EmuMode, lcdc: byte, attributes: byte, sprite: bool, spriteSize: byte,
                           tileIndex: byte)
    ensures var off := TileDataOffset(mode, lcdc, attributes, sprite, spriteSize, tileIndex);
            var bank := if mode == EmuCgb && Bit(attributes, 3) then 0x2000 else 0;
            off + 16 <= VramSize(mode) &&
            (!sprite && !Bit(lcdc, 4) ==> off == bank + 0x1000 + 16 * Signed8(tileIndex)) &&
            (sprite || Bit(lcdc, 4) ==> off < bank + 0x1000)
  {
  }

  /** The CGB palette entry as getPixelColor_CGB reads it: little-endian RGB555 at
   *  palette * 8 + colorID * 2, each channel widened. A read past the 64-byte colour RAM gives
   *  0xFF. */
  function PixelColorCGB(cram: seq<byte>, p: GbFifo.Pixel): Rgb
  {
    var i := PaletteEntry(p);
    Rgb555(Join(CramByte(cram, i + 1), CramByte(cram, i)))
  }

  /** Offset of a pixel's colour in colour RAM: eight bytes per palette, two per colour. */
  function PaletteEntry(p: GbFifo.Pixel): nat
  {
    ByteNat(p.colorPalette) * 8 + ByteNat(p.colorID) * 2
  }

  /** A colour RAM byte, 0xFF past the end. */
  function CramByte(cram: seq<byte>, i: nat): byte
  {
    if i < |cram| then cram[i] else 0xFF
  }

  /** An RGB555 colour word, each 5-bit channel widened to 8 bits. */
  function Rgb555(color: word): Rgb
  {
    Rgb(ToRGB888((color & 0x1F) as byte), ToRGB888(((color & 0x3E0) >> 5) as byte),
        ToRGB888(((color & 0x7C00) >> 10) as byte))
  }

  /** In range, a CGB colour is the little-endian RGB555 word at the pixel's palette entry. */
  lemma PixelColorCGBWord(cram: seq<byte>, p: GbFifo.Pixel, i: nat)
    requires i == PaletteEntry(p) && i + 1 < |cram|
    ensures PixelColorCGB(cram, p) == Rgb555(Join(cram[i + 1], cram[i]))
  {
  }

  /** Each channel of a CGB colour is its 5-bit field of the palette entry, widened. */
  lemma PixelColorCGBChannels(cram: seq<byte>, p: GbFifo.Pixel, i: nat, lo: byte, hi: byte)
    requires i == PaletteEntry(p) && i + 1 < |cram|
    requires lo == cram[i] && hi == cram[i + 1]
    ensures PixelColorCGB(cram, p).r >> 3 == lo & 0x1F
    ensures PixelColorCGB(cram, p).b >> 3 == (hi >> 2) & 0x1F
    ensures PixelColorCGB(cram, p).g >> 3 == ((hi & 0x03) << 3) | (lo >> 5)
  {
    PixelColorCGBWord(cram, p, i);
    Rgb555Channels(hi, lo);
  }

  /** The channels of the word `hi:lo`: red is lo's low five bits, blue hi's bits 2-6, green
   *  hi's low two bits above lo's top three. */
  lemma Rgb555Channels(hi: byte, lo: byte)
    ensures Rgb555(Join(hi, lo)).r >> 3 == lo & 0x1F
    ensures Rgb555(Join(hi, lo)).b >> 3 == (hi >> 2) & 0x1F
    ensures Rgb555(Join(hi, lo)).g >> 3 == ((hi & 0x03) << 3) | (lo >> 5)
  {
    var color := Join(hi, lo);
    ChannelFields(hi, lo);
    ToRGB888Widens((color & 0x1F) as byte, 0);
    ToRGB888Widens(((color & 0x3E0) >> 5) as byte, 0);
    ToRGB888Widens(((color & 0x7C00) >> 10) as byte, 0);
  }

  lemma ChannelFields(hi: byte, lo: byte)
    ensures var c := Join(hi, lo);
            (c & 0x1F) as byte == lo & 0x1F &&
            ((c & 0x3E0) >> 5) as byte == ((hi & 0x03) << 3) | (lo >> 5) &&
            ((c & 0x7C00) >> 10) as byte == (hi >> 2) & 0x1F
  {
  }
}
