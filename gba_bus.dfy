// The Game Boy Advance bus of gba/gba.c: little-endian encoding and decoding of 8-, 16- and
// 32-bit values, busRead from the gamepak ROM (and its two mirrors) and from internal work RAM,
// and busWrite into internal work RAM. No other region is mapped yet: reads from it are 0 and
// writes to it are dropped.

module GbaBus {
  import opened Bits
  import GbaState

  /** The size argument of busRead and busWrite (WIDTH_8, WIDTH_16, WIDTH_32). */
  datatype Width = Width8 | Width16 | Width32

  /** How many bytes an access of the width covers. */
  function Bytes(w: Width): (n: nat)
    ensures 1 <= n <= 4
  {
    match w
    case Width8 => 1
    case Width16 => 2
    case Width32 => 4
  }

  // ---------------------------------------------------------------------------------------
  // Little-endian encoding

  /** littleEndian32Decode on the four bytes at ptr. */
  function Decode32(p: seq<byte>): dword
    requires |p| == 4
  {
    (p[3] as dword << 24) | (p[2] as dword << 16) | (p[1] as dword << 8) | p[0] as dword
  }

  /** littleEndian16Decode on the two bytes at ptr. */
  function Decode16(p: seq<byte>): bv16
    requires |p| == 2
  {
    (p[1] as bv16 << 8) | p[0] as bv16
  }

  /** The bytes littleEndian32Encode stores at ptr[0..3]: lowest byte first. */
  function Encoding32(v: dword): (p: seq<byte>)
    ensures |p| == 4
  {
    [(v & 0xFF) as byte, ((v >> 8) & 0xFF) as byte, ((v >> 16) & 0xFF) as byte, ((v >> 24) & 0xFF) as byte]
  }

  /** The bytes littleEndian16Encode stores at ptr[0..1]. */
  function Encoding16(v: bv16): (p: seq<byte>)
    ensures |p| == 2
  {
    [(v & 0xFF) as byte, ((v >> 8) & 0xFF) as byte]
  }

  /** Decoding an encoded value gives the value back. */
  lemma Decode32Encoding32(v: dword)
    ensures Decode32(Encoding32(v)) == v
  {
  }

  /** Encoding a decoded value gives the bytes back: the two are inverse bijections. */
  lemma Encoding32Decode32(p: seq<byte>)
    requires |p| == 4
    ensures Encoding32(Decode32(p)) == p
  {
  }

  lemma Decode16Encoding16(v: bv16)
    ensures Decode16(Encoding16(v)) == v
  {
  }

  lemma Encoding16Decode16(p: seq<byte>)
    requires |p| == 2
    ensures Encoding16(Decode16(p)) == p
  {
  }

  /** The value an access of width w reads from its bytes, zero-extended to 32 bits. */
  function Value(p: seq<byte>, w: Width): dword
    requires |p| == Bytes(w)
  {
    match w
    case Width32 => Decode32(p)
    case Width16 => Decode16(p) as dword
    case Width8 => p[0] as dword
  }

  /** The bytes a write of width w stores: the data cut to uint16_t or uint8_t first. */
  function Encoding(d: dword, w: Width): (p: seq<byte>)
    ensures |p| == Bytes(w)
  {
    match w
    case Width32 => Encoding32(d)
    case Width16 => Encoding16((d & 0xFFFF) as bv16)
    case Width8 => [(d & 0xFF) as byte]
  }

  /** What a read of width w returns after a write of d: d cut to the width. */
  function Truncate(d: dword, w: Width): dword
  {
    match w
    case Width32 => d
    case Width16 => d & 0xFFFF
    case Width8 => d & 0xFF
  }

  /** Reading back what a write stored gives the data cut to the width. */
  lemma ValueOfEncoding(d: dword, w: Width)
    ensures Value(Encoding(d, w), w) == Truncate(d, w)
  {
    match w
    case Width32 => Decode32Encoding32(d);
    case Width16 => Decode16Encoding16((d & 0xFFFF) as bv16);
    case Width8 =>
  }

  // ---------------------------------------------------------------------------------------
  // Buffers

  /** The n bytes from index at of a buffer. C reads past the end of the allocation when an
   *  access runs over it; such a byte is taken to be 0 here. */
  function Window(mem: seq<byte>, at: nat, n: nat): (p: seq<byte>)
    ensures |p| == n
    ensures at + n <= |mem| ==> p == mem[at..at + n]
  {
    seq(n, k requires 0 <= k < n => if at + k < |mem| then mem[at + k] else 0)
  }

  /** The buffer after storing bytes at index at. A byte that would land past the end of the
   *  buffer (C writes past the allocation) is dropped here. */
  function Store(mem: seq<byte>, at: nat, bytes: seq<byte>): (r: seq<byte>)
    ensures |r| == |mem|
    ensures forall k :: 0 <= k < |mem| && !(at <= k < at + |bytes|) ==> r[k] == mem[k]
    ensures forall k :: at <= k < at + |bytes| && k < |mem| ==> r[k] == bytes[k - at]
  {
    seq(|mem|, k requires 0 <= k < |mem| => if at <= k < at + |bytes| then bytes[k - at] else mem[k])
  }

  /** A window over bytes just stored shows them. */
  lemma WindowOfStore(mem: seq<byte>, at: nat, bytes: seq<byte>)
    requires at + |bytes| <= |mem|
    ensures Window(Store(mem, at, bytes), at, |bytes|) == bytes
  {
    var r := Store(mem, at, bytes);
    assert forall k :: 0 <= k < |bytes| ==> r[at + k] == bytes[k];
  }

  /** littleEndian32Encode into a buffer. */
  method Encode32(buf: array<byte>, at: nat, v: dword)
    modifies buf
    ensures buf[..] == Store(old(buf[..]), at, Encoding32(v))
  {
    var p := Encoding32(v);
    StoreBytes(buf, at, p);
  }

  /** littleEndian16Encode into a buffer. */
  method Encode16(buf: array<byte>, at: nat, v: bv16)
    modifies buf
    ensures buf[..] == Store(old(buf[..]), at, Encoding16(v))
  {
    var p := Encoding16(v);
    StoreBytes(buf, at, p);
  }

  /** Stores the bytes one by one from index at, as ptr[0] = ..., ptr[1] = ... do. */
  method StoreBytes(buf: array<byte>, at: nat, p: seq<byte>)
    modifies buf
    ensures buf[..] == Store(old(buf[..]), at, p)
  {
    ghost var before := buf[..];
    for k := 0 to |p|
      invariant buf[..] == Store(before, at, p[..k])
    {
      if at + k < buf.Length {
        buf[at + k] := p[k];
      }
      assert p[..k + 1] == p[..k] + [p[k]];
    }
    assert p[..|p|] == p;
  }

  // ---------------------------------------------------------------------------------------
  // The memory map

  const EXT_ROM0_32MB: dword := 0x0800_0000
  const EXT_ROM1_32MB: dword := 0x0A00_0000
  const EXT_ROM2_32MB: dword := 0x0C00_0000
  const EXT_ROM2_32MB_END: dword := 0x0DFF_FFFF
  const INT_WRAM_32KB: dword := 0x0300_0000
  const INT_WRAM_32KB_END: dword := 0x0300_7FFF
  /** The size of the internal work RAM initialiseGBA allocates. */
  const IWRAM_SIZE: nat := 0x8000

  /** The gamepak range busRead recognises: ROM0 and its two mirrors with other wait states. */
  predicate InRom(a: dword)
  {
    EXT_ROM0_32MB <= a <= EXT_ROM2_32MB_END
  }

  predicate InIwram(a: dword)
  {
    INT_WRAM_32KB <= a <= INT_WRAM_32KB_END
  }

  /** The offset of an address into internal work RAM. */
  function IwramOffset(a: dword): (n: nat)
    requires InIwram(a)
    ensures n < IWRAM_SIZE
  {
    (a - INT_WRAM_32KB) as nat
  }

  /** The relative address busRead computes for a gamepak address: only the first 16 MiB of each
   *  32 MiB window (address bits 27-24 = 8, A or C) assign it. */
  datatype Relative = Relative(offset: dword) | Uninitialised

  function RomOffsetAsWritten(a: dword): (r: Relative)
    requires InRom(a)
  {
    var page := (a >> 24) & 0xF;
    if page == 0x8 then Relative(a - EXT_ROM0_32MB)
    else if page == 0xA then Relative(a - EXT_ROM1_32MB)
    else if page == 0xC then Relative(a - EXT_ROM2_32MB)
    else Uninitialised
  }

  /** The upper half of each window leaves relativeAddress uninitialised: 0x09000000 is the
   *  first such address. */
  lemma RomOffsetCounterexample()
    ensures InRom(0x0900_0000) && RomOffsetAsWritten(0x0900_0000) == Uninitialised
  {
  }

  /** The relative address against the base of the 32 MiB window the address lies in, which the
   *  three cases evidently mean: ROM0 spans 0x08000000-0x09FFFFFF, and likewise the mirrors. */
  function RomOffset(a: dword): (r: dword)
    requires InRom(a)
    ensures r < 0x0200_0000
    ensures RomOffsetAsWritten(a).Relative? ==> r == RomOffsetAsWritten(a).offset
  {
    var page := (a >> 24) & 0xF;
    if page < 0xA then a - EXT_ROM0_32MB
    else if page < 0xC then a - EXT_ROM1_32MB
    else a - EXT_ROM2_32MB
  }

  /** The gamepak bounds test: `relativeAddress > size - 1` rejects the read, computed in
   *  size_t, so that an empty gamepak (size - 1 wraps) rejects nothing. Only the first byte of
   *  the access is tested. */
  predicate GamepakAccepts(rel: dword, size: nat)
  {
    size == 0 || rel as nat < size
  }

  /** A gamepak read: the bytes at the relative address, or 0 when the bounds test rejects it. */
  function RomRead(rom: seq<byte>, a: dword, w: Width): dword
    requires InRom(a)
  {
    var rel := RomOffset(a);
    if GamepakAccepts(rel, |rom|) then Value(Window(rom, rel as nat, Bytes(w)), w) else 0
  }

  /** An internal work RAM read. */
  function IwramRead(iwram: seq<byte>, a: dword, w: Width): dword
    requires InIwram(a)
  {
    Value(Window(iwram, IwramOffset(a), Bytes(w)), w)
  }

  /** busRead on the gamepak bytes and the internal work RAM. */
  function BusRead(rom: seq<byte>, iwram: seq<byte>, a: dword, w: Width): dword
  {
    if InRom(a) then RomRead(rom, a, w)
    else if InIwram(a) then IwramRead(iwram, a, w)
    else 0
  }

  /** busWrite on the internal work RAM: an address elsewhere changes nothing. */
  function BusWrite(iwram: seq<byte>, a: dword, d: dword, w: Width): seq<byte>
  {
    if InIwram(a) then Store(iwram, IwramOffset(a), Encoding(d, w)) else iwram
  }

  // ---------------------------------------------------------------------------------------
  // Properties of the map

  /** A gamepak read inside the image decodes the image's bytes at the relative address. */
  lemma RomReadDecodes(rom: seq<byte>, iwram: seq<byte>, a: dword, w: Width)
    requires InRom(a) && RomOffset(a) as nat + Bytes(w) <= |rom|
    ensures BusRead(rom, iwram, a, w) ==
              Value(rom[RomOffset(a) as nat..RomOffset(a) as nat + Bytes(w)], w)
  {
  }

  /** ROM0 and its two mirrors read the same gamepak bytes for the same offset. */
  lemma RomMirrors(rom: seq<byte>, iwram: seq<byte>, off: dword, w: Width)
    requires off < 0x0200_0000
    ensures BusRead(rom, iwram, EXT_ROM0_32MB + off, w) == BusRead(rom, iwram, EXT_ROM1_32MB + off, w)
    ensures BusRead(rom, iwram, EXT_ROM0_32MB + off, w) == BusRead(rom, iwram, EXT_ROM2_32MB + off, w)
  {
    assert RomOffset(EXT_ROM0_32MB + off) == off;
    assert RomOffset(EXT_ROM1_32MB + off) == off;
    assert RomOffset(EXT_ROM2_32MB + off) == off;
  }

  /** A gamepak read whose relative address lies past a non-empty image returns 0. */
  lemma RomOutOfRange(rom: seq<byte>, iwram: seq<byte>, a: dword, w: Width)
    requires InRom(a) && |rom| > 0 && RomOffset(a) as nat >= |rom|
    ensures BusRead(rom, iwram, a, w) == 0
  {
  }

  /** Reads outside the gamepak and internal work RAM return 0. */
  lemma UnmappedReadsZero(rom: seq<byte>, iwram: seq<byte>, a: dword, w: Width)
    requires !InRom(a) && !InIwram(a)
    ensures BusRead(rom, iwram, a, w) == 0
  {
  }

  /** A write followed by a read at the same address and width inside internal work RAM returns
   *  the data cut to the width. */
  lemma IwramReadAfterWrite(rom: seq<byte>, iwram: seq<byte>, a: dword, d: dword, w: Width)
    requires |iwram| == IWRAM_SIZE && InIwram(a) && IwramOffset(a) + Bytes(w) <= IWRAM_SIZE
    ensures BusRead(rom, BusWrite(iwram, a, d, w), a, w) == Truncate(d, w)
  {
    WindowOfStore(iwram, IwramOffset(a), Encoding(d, w));
    ValueOfEncoding(d, w);
  }

  /** A write changes only the bytes it covers, and a write outside internal work RAM changes
   *  nothing. */
  lemma WriteConfined(iwram: seq<byte>, a: dword, d: dword, w: Width, k: nat)
    requires k < |iwram|
    requires !InIwram(a) || !(IwramOffset(a) <= k < IwramOffset(a) + Bytes(w))
    ensures |BusWrite(iwram, a, d, w)| == |iwram| && BusWrite(iwram, a, d, w)[k] == iwram[k]
  {
  }

  /** busWrite(gba, address, data, size) on the emulator's internal work RAM. */
  method Write(gba: GbaState.Gba, a: dword, d: dword, w: Width)
    modifies gba.IWRAM
    ensures gba.IWRAM[..] == BusWrite(old(gba.IWRAM[..]), a, d, w)
  {
    if InIwram(a) {
      var at := IwramOffset(a);
      match w
      case Width32 => Encode32(gba.IWRAM, at, d);
      case Width16 => Encode16(gba.IWRAM, at, (d & 0xFFFF) as bv16);
      case Width8 => StoreBytes(gba.IWRAM, at, [(d & 0xFF) as byte]);
    }
  }

  /** busRead(gba, address, size) on the emulator's gamepak and internal work RAM. */
  function Read(gba: GbaState.Gba, a: dword, w: Width): dword
    reads gba.IWRAM
  {
    BusRead(gba.rom, gba.IWRAM[..], a, w)
  }
}
