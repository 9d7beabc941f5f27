// The cartridge record of the legacy flat-memory emulator (src/cartridge.c): initCartridge
// fills the record from the raw image, field by field, and the toStr* tables name the codes
// for the debug printout.

module VmCartridge {
  import opened Bits
  import opened GbCart

  /** The smallest image initCartridge accepts. */
  const MIN_SIZE: nat := 0x3FFF

  /** CGB_CODE from the byte at 0x143: 0x80 and 0xC0 name the two colour modes; every other
   *  byte, with or without the PGB bits, falls back to DMG. */
  function CgbCodeOf(b: byte): (c: CgbCode)
  {
    if b == 0x80 then CgbDmgMode
    else if b == 0xC0 then CgbMode
    else if (b >> 7) != 0 && ((b >> 2) & 1 != 0 || (b >> 3) & 1 != 0) then DmgMode
    else DmgMode
  }

  /** Both colour modes are chosen by exactly one byte, and DMG by all the others. */
  lemma CgbCodeExactly(b: byte)
    ensures CgbCodeOf(b) == CgbDmgMode <==> b == 0x80
    ensures CgbCodeOf(b) == CgbMode <==> b == 0xC0
    ensures CgbCodeOf(b) == DmgMode <==> b != 0x80 && b != 0xC0
  {
  }

  /** `globalChecksum = (data[0x14E] << 8) | data[0x14F]` stored in a uint8_t field: the 16-bit
   *  value is formed and then truncated to its low byte. */
  function StoredGlobalChecksum(hi: byte, lo: byte): (c: byte)
  {
    Lo(Join(hi, lo))
  }

  /** Only the second checksum byte survives the truncation. */
  lemma GlobalChecksumKeepsLowByte(hi: byte, lo: byte)
    ensures StoredGlobalChecksum(hi, lo) == lo
  {
    JoinHiLo(Join(hi, lo));
    HiLoJoin(hi, lo);
  }

  /** The image initCartridge accepts: present, and at least 0x3FFF bytes long. */
  predicate Accepted(data: Option<seq<byte>>)
  {
    data.Some? && |data.value| >= MIN_SIZE
  }

  /** The decoded header fields of the Cartridge structure. */
  datatype Header = Header(
    logoChecksum: seq<byte>,   // 0x30 bytes at 0x104
    title: seq<byte>,          // 11 bytes at 0x134
    mfcCode: seq<byte>,        // 4 bytes at 0x13F
    cgbCode: CgbCode,          // decoded from 0x143
    lCode: byte,               // 0x145
    supportsSGB: bool,         // 0x146 == 0x03
    cType: byte,               // 0x147
    romSize: byte,             // 0x148
    extRamSize: byte,          // 0x149
    dCode: byte,               // 0x14A
    oldLCode: byte,            // 0x14B
    romVersion: byte,          // 0x14C
    headerChecksum: byte,      // 0x14D
    globalChecksum: byte)      // 0x14E..0x14F, truncated

  /** The field-by-field decoding initCartridge performs on an accepted image. */
  function ParseHeader(d: seq<byte>): (h: Header)
    requires |d| >= MIN_SIZE
    ensures |h.logoChecksum| == 0x30 && |h.title| == 11 && |h.mfcCode| == 4
    ensures forall i :: 0 <= i < 0x30 ==> h.logoChecksum[i] == d[0x104 + i]
    ensures forall i :: 0 <= i < 11 ==> h.title[i] == d[0x134 + i]
    ensures forall i :: 0 <= i < 4 ==> h.mfcCode[i] == d[0x13F + i]
    ensures h.supportsSGB <==> d[0x146] == 0x03
    ensures h.globalChecksum == d[0x14F]
  {
    GlobalChecksumKeepsLowByte(d[0x14E], d[0x14F]);
    Header(d[0x104..0x134], d[0x134..0x13F], d[0x13F..0x143], CgbCodeOf(d[0x143]), d[0x145],
           d[0x146] == 0x03, d[0x147], d[0x148], d[0x149], d[0x14A], d[0x14B], d[0x14C], d[0x14D],
           StoredGlobalChecksum(d[0x14E], d[0x14F]))
  }

  /** The decoded header depends on the header bytes 0x104..0x14F and on nothing else of the
   *  image. */
  lemma {:induction false} ParseHeaderReadsOffsets(d: seq<byte>, d': seq<byte>)
    requires |d| >= MIN_SIZE && |d'| >= MIN_SIZE
    requires d[0x104..0x150] == d'[0x104..0x150]
    ensures ParseHeader(d) == ParseHeader(d')
  {
    forall k | 0x104 <= k < 0x150
      ensures d[k] == d'[k]
    {
      assert d[k] == d[0x104..0x150][k - 0x104];
      assert d'[k] == d'[0x104..0x150][k - 0x104];
    }
    assert d[0x104..0x134] == d'[0x104..0x134];
    assert d[0x134..0x13F] == d'[0x134..0x13F];
    assert d[0x13F..0x143] == d'[0x13F..0x143];
  }

  /** The Cartridge structure: the whole image (the C `allocated` buffer), the decoded header
   *  and the inserted flag. */
  class Cartridge {
    var image: seq<byte>
    var header: Header
    var inserted: bool

    /** A record before initCartridge has filled it; C leaves it uninitialised, the model
     *  starts it empty. */
    constructor ()
      ensures image == [] && !inserted
    {
      image := [];
      header := Header([], [], [], DmgMode, 0, false, 0, 0, 0, 0, 0, 0, 0, 0);
      inserted := false;
    }

    /** initCartridge. A NULL image (None) or one shorter than 0x3FFF bytes is refused and the
     *  record is left alone; otherwise the image is kept and the header decoded from it. */
    method Init(data: Option<seq<byte>>) returns (ok: bool)
      modifies this
      ensures ok == Accepted(data)
      ensures !ok ==> unchanged(this)
      ensures ok ==> image == data.value && header == ParseHeader(data.value) && !inserted
    {
      if data.None? {
        return false;
      }
      var d := data.value;
      if |d| < MIN_SIZE {
        return false;
      }
      image := d;
      header := ParseHeader(d);
      inserted := false;
      return true;
    }
  }

  // ---------------------------------------------------------------------------------------
  // The toStr* tables

  const UNKNOWN: string := "Unknown"

  /** The licensee codes toStrLicenceeCode names. */
  const LICENCEE_CODES: set<byte> :=
    {0x00, 0x01, 0x08, 0x13, 0x18, 0x19, 0x20, 0x22, 0x24, 0x25, 0x28, 0x29, 0x30, 0x31, 0x32, 0x33, 0x34}

  /** toStrLicenceeCode. */
  function LicenceeName(code: byte): string
  {
    if code == 0x00 then "None"
    else if code == 0x01 then "Nintendo R&D1"
    else if code == 0x08 then "Capcom"
    else if code == 0x13 then "Electronic Arts"
    else if code == 0x18 then "Hudson Soft"
    else if code == 0x19 then "b-ai"
    else if code == 0x20 then "kss"
    else if code == 0x22 then "pow"
    else if code == 0x24 then "PCM Complete"
    else if code == 0x25 then "san-x"
    else if code == 0x28 then "Kemco Japan"
    else if code == 0x29 then "seta"
    else if code == 0x30 then "Viacom"
    else if code == 0x31 then "Nintendo"
    else if code == 0x32 then "Bandai"
    else if code == 0x33 then "Ocean/Acclaim"
    else if code == 0x34 then "Konami"
    else UNKNOWN
  }

  /** The licensee table answers "Unknown" exactly for the codes it does not list. */
  lemma LicenceeUnknownExactly(code: byte)
    ensures LicenceeName(code) == UNKNOWN <==> code !in LICENCEE_CODES
  {
  }

  /** The cartridge type codes toStrCartridgeType names. */
  const CARTRIDGE_TYPES: set<byte> :=
    {0x00, 0x01, 0x02, 0x03, 0x05, 0x06, 0x08, 0x09, 0x0B, 0x0C, 0x0D, 0x0F, 0x10, 0x11, 0x12, 0x13,
     0x19, 0x1A, 0x1B, 0x1C, 0x1D, 0x1E, 0x20, 0x22, 0xFC, 0xFD, 0xFE, 0xFF}

  /** toStrCartridgeType, in two halves by code. */
  function CartridgeTypeName(code: byte): string
  {
    if code < 0x14 then LowCartridgeTypeName(code) else HighCartridgeTypeName(code)
  }

  function LowCartridgeTypeName(code: byte): string
  {
    if code == 0x01 then "MBC1"
    else if code == 0x02 then "MBC1 + RAM"
    else if code == 0x03 then "MBC1 + RAM + Battery"
    else if code == 0x05 then "MBC2"
    else if code == 0x06 then "MBC2 + Battery"
    else if code == 0x00 then "None"
    else if code == 0x08 then "ROM + RAM"
    else if code == 0x09 then "ROM + RAM + BATTERY"
    else if code == 0x0B then "MMM01"
    else if code == 0x0C then "MMM01 + RAM"
    else if code == 0x0D then "MMM01 + RAM + BATTERY"
    else if code == 0x0F then "MBC3 + TIMER + BATTERY"
    else if code == 0x10 then "MBC3 + TIMER + RAM + BATTERY"
    else if code == 0x11 then "MBC3"
    else if code == 0x12 then "MBC3 + RAM"
    else if code == 0x13 then "MBC3 + RAM + BATTERY"
    else UNKNOWN
  }

  function HighCartridgeTypeName(code: byte): string
  {
    if code == 0x19 then "MBC5"
    else if code == 0x1A then "MBC5 + RAM"
    else if code == 0x1B then "MBC5 + RAM + BATTERY"
    else if code == 0x1C then "MBC5 + RUMBLE"
    else if code == 0x1D then "MBC5 + RUMBLE + RAM"
    else if code == 0x1E then "MBC5 + RUMBLE + RAM + BATTERY"
    else if code == 0x20 then "MBC6"
    else if code == 0x22 then "MBC7 + SENSOR + RUMBLE + RAM + BATTERY"
    else if code == 0xFC then "+POCKET CAMERA"
    else if code == 0xFD then "+BANDAI TAMA"
    else if code == 0xFE then "HuC3"
    else if code == 0xFF then "HuC1 + RAM + BATTERY"
    else UNKNOWN
  }

  /** The type table answers "Unknown" exactly for the codes it does not list. */
  lemma CartridgeTypeUnknownExactly(code: byte)
    ensures CartridgeTypeName(code) == UNKNOWN <==> code !in CARTRIDGE_TYPES
  {
    if code < 0x14 {
      assert LowCartridgeTypeName(code) == UNKNOWN <==> code !in CARTRIDGE_TYPES;
    } else {
      assert HighCartridgeTypeName(code) == UNKNOWN <==> code !in CARTRIDGE_TYPES;
    }
  }

  /** toStrRomSize: the codes ROM_32KB .. ROM_8MB. */
  function RomSizeName(code: byte): string
  {
    if code == 0 then "32 KB"
    else if code == 1 then "64 KB"
    else if code == 2 then "128 KB"
    else if code == 3 then "256 KB"
    else if code == 4 then "512 KB"
    else if code == 5 then "1 MB"
    else if code == 6 then "2 MB"
    else if code == 7 then "4 MB"
    else if code == 8 then "8 MB"
    else UNKNOWN
  }

  /** The ROM size table names exactly the nine codes of the enumeration. */
  lemma RomSizeUnknownExactly(code: byte)
    ensures RomSizeName(code) == UNKNOWN <==> code > ROM_8MB
  {
  }

  /** toStrRamSize: the codes EXT_RAM_0 .. EXT_RAM_64KB. The enumeration puts 128 KiB (4)
   *  before 64 KiB (5), and the 64 KiB entry is spelt "84 KB EXT RAM" in the source. */
  function RamSizeName(code: byte): string
  {
    if code == 0 then "No External Ram"
    else if code == 1 then "2 KB EXT RAM"
    else if code == 2 then "8 KB EXT RAM"
    else if code == 3 then "32 KB EXT RAM"
    else if code == 5 then "84 KB EXT RAM"
    else if code == 4 then "128 KB EXT RAM"
    else UNKNOWN
  }

  /** The RAM size table names exactly the six codes of the enumeration. */
  lemma RamSizeUnknownExactly(code: byte)
    ensures RamSizeName(code) == UNKNOWN <==> code > 5
  {
  }

  /** toStrCGBCode: total over the three modes. */
  function CgbName(c: CgbCode): (s: string)
    ensures s != UNKNOWN
  {
    match c
    case DmgMode => "DMG"
    case CgbMode => "CGB"
    case CgbDmgMode => "CGB + DMG"
  }
}
