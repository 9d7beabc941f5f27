// The parts of the Game Boy cartridge record that the memory bank controllers and the boot
// checks consult. The header codes are kept as the raw bytes the cartridge carries; the size
// codes follow the ordered enumerations ROM_32KB .. ROM_8MB and EXT_RAM_0 .. EXT_RAM_64KB.

module GbCart {
  import opened Bits

  const ROM_32KB: byte := 0
  const ROM_64KB: byte := 1
  const ROM_128KB: byte := 2
  const ROM_256KB: byte := 3
  const ROM_512KB: byte := 4
  const ROM_1MB: byte := 5
  const ROM_2MB: byte := 6
  const ROM_8MB: byte := 8

  const EXT_RAM_0: byte := 0
  const EXT_RAM_8KB: byte := 2
  const EXT_RAM_32KB: byte := 3
  const EXT_RAM_128KB: byte := 4

  /** CGB_CODE: the decoded CGB support flag of the header. */
  datatype CgbCode = DmgMode | CgbDmgMode | CgbMode

  /** The cartridge as the emulator holds it: the whole ROM image and the decoded header. */
  datatype Cart = Cart(
    rom: seq<byte>,          // `allocated`
    cType: byte,             // cartridge type code at 0x147
    romSize: byte,           // ROM size code at 0x148
    extRamSize: byte,        // external RAM size code at 0x149
    headerChecksum: byte,    // byte at 0x14D
    logo: seq<byte>,         // the 0x30 logo bytes at 0x104
    cgbCode: CgbCode)        // decoded from the byte at 0x143

  /** `allocated[i]`; an index outside the image (undefined behaviour in C) reads as 0xFF. */
  function RomByte(rom: seq<byte>, i: int): (b: byte)
    ensures 0 <= i < |rom| ==> b == rom[i]
    ensures !(0 <= i < |rom|) ==> b == 0xFF
  {
    if 0 <= i < |rom| then rom[i] else 0xFF
  }

  /** The number of 16 KiB banks a ROM size code stands for (2, 4, ..., 512). */
  function BankCount(romSize: byte): (n: nat)
    requires romSize <= ROM_8MB
    ensures n >= 2
  {
    if romSize == 0 then 2 else 2 * BankCount(romSize - 1)
  }

  /** `(1 << (romSize + 1)) - 1` taken down to a byte: the bank-number bits a ROM of this size
   *  decodes. From a 4 MiB ROM up every bit of a byte survives; sizes past what the C shift
   *  can express are given the same all-ones mask. */
  function RomBankMask(romSize: byte): (m: byte)
    ensures romSize < 7 ==> m as int + 1 == BankCount(romSize)
    ensures romSize >= 7 ==> m == 0xFF
  {
    if romSize == 0 then 0x01
    else if romSize == 1 then 0x03
    else if romSize == 2 then 0x07
    else if romSize == 3 then 0x0F
    else if romSize == 4 then 0x1F
    else if romSize == 5 then 0x3F
    else if romSize == 6 then 0x7F
    else 0xFF
  }

  datatype Option<T> = None | Some(value: T)

  /** `0x2000 * bank + addr`: the position of a byte of an 8 KiB external RAM bank. */
  function RamIndex(bank: byte, addr: nat): nat
  {
    0x2000 * ByteNat(bank) + addr
  }

  /** A read of banked external RAM behind a gate (RAM present and enabled, as the controller
   *  decides): 0xFF when the gate is closed. An index past the allocation also reads 0xFF. */
  function GatedRead(ram: seq<byte>, open: bool, bank: byte, addr: nat): byte
  {
    var i := RamIndex(bank, addr);
    if !open || i >= |ram| then 0xFF else ram[i]
  }

  /** A write of banked external RAM behind a gate: dropped when the gate is closed. */
  function GatedWrite(ram: seq<byte>, open: bool, bank: byte, addr: nat, b: byte): seq<byte>
  {
    var i := RamIndex(bank, addr);
    if !open || i >= |ram| then ram else ram[i := b]
  }

  /** A write through an open gate is read back at the same address and leaves every other
   *  address of the bank as it was. */
  lemma GatedRoundTrip(ram: seq<byte>, bank: byte, addr: nat, addr': nat, b: byte)
    requires addr < 0x2000 && addr' < 0x2000 && RamIndex(bank, 0x1FFF) < |ram|
    ensures GatedRead(GatedWrite(ram, true, bank, addr, b), true, bank, addr) == b
    ensures addr' != addr ==> GatedRead(GatedWrite(ram, true, bank, addr, b), true, bank, addr') ==
                              GatedRead(ram, true, bank, addr')
    ensures |GatedWrite(ram, true, bank, addr, b)| == |ram|
  {
  }

  /** Through a closed gate reads give 0xFF and writes change nothing. */
  lemma GatedClosed(ram: seq<byte>, bank: byte, addr: nat, b: byte)
    ensures GatedRead(ram, false, bank, addr) == 0xFF
    ensures GatedWrite(ram, false, bank, addr, b) == ram
  {
  }

  /** A masked byte never exceeds its mask. */
  lemma MaskedBelow(x: byte, m: byte)
    ensures x & m <= m
  {
  }
}
