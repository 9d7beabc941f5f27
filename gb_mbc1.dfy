// The MBC1 memory bank controller of gb/mbc1.c: five register ranges written through the ROM
// area, bank numbers derived from them at every register write, and banked external RAM.

module GbMbc1 {
  import opened Bits
  import opened GbCart

  datatype BankMode = RomMode | RamMode

  /** The three bank numbers syncMBC1 derives. */
  datatype Banks = Banks(rom: byte, rom0: byte, ram: byte)

  /** `min(romSize, ROM_2MB)`: MBC1 decodes at most seven bank bits. */
  function ClampedSize(romSize: byte): (s: byte)
    ensures s <= ROM_2MB && (romSize <= ROM_2MB ==> s == romSize)
  {
    if romSize > ROM_2MB then ROM_2MB else romSize
  }

  /** syncMBC1: the bank numbers for the current registers and banking mode. */
  function SyncBanks(mode: BankMode, romBankNumber: byte, secondary: byte, romSize: byte, extRamSize: byte): Banks
  {
    var size := ClampedSize(romSize);
    var low := if romBankNumber == 0 then 1 else romBankNumber;
    var bank := if romSize >= ROM_1MB then low | (secondary << 5) else low;
    match mode
    case RomMode =>
      Banks(bank & RomBankMask(size), 0, 0)
    case RamMode =>
      var rom0 := if romSize >= ROM_1MB then
                    (if size == ROM_1MB then (secondary << 5) & 0x3F else secondary << 5)
                  else 0;
      Banks(bank & RomBankMask(size), rom0, if extRamSize >= EXT_RAM_32KB then secondary else 0)
  }

  /** The switchable bank always lies inside a ROM of the declared size (up to 2 MiB). */
  lemma SyncRomBankInRange(mode: BankMode, romBankNumber: byte, secondary: byte, romSize: byte, extRamSize: byte)
    ensures SyncBanks(mode, romBankNumber, secondary, romSize, extRamSize).rom <= RomBankMask(ClampedSize(romSize))
  {
    var b := SyncBanks(mode, romBankNumber, secondary, romSize, extRamSize);
    var low := if romBankNumber == 0 then 1 else romBankNumber;
    var bank := if romSize >= ROM_1MB then low | (secondary << 5) else low;
    MaskedBelow(bank, RomBankMask(ClampedSize(romSize)));
  }

  /** In ROM banking mode the 0x0000 window and the RAM bank are both locked to bank 0, and the
   *  switchable bank is the 5-bit register (0 read as 1), extended by the 2-bit register on
   *  ROMs of 1 MiB or more. */
  lemma SyncRomMode(romBankNumber: byte, secondary: byte, romSize: byte, extRamSize: byte)
    requires romBankNumber < 0x20 && secondary < 4
    ensures var b := SyncBanks(RomMode, romBankNumber, secondary, romSize, extRamSize);
            var low := if romBankNumber == 0 then 1 else romBankNumber;
            b.rom0 == 0 && b.ram == 0 &&
            (romSize < ROM_1MB ==> b.rom == low & RomBankMask(romSize)) &&
            (romSize >= ROM_2MB ==> b.rom == secondary * 0x20 + low)
  {
  }

  /** In RAM banking mode the 2-bit register picks the 0x0000 window bank on ROMs of 1 MiB or
   *  more and the RAM bank on cartridges with 32 KiB of RAM or more. */
  lemma SyncRamMode(romBankNumber: byte, secondary: byte, romSize: byte, extRamSize: byte)
    requires secondary < 4
    ensures var b := SyncBanks(RamMode, romBankNumber, secondary, romSize, extRamSize);
            (romSize < ROM_1MB ==> b.rom0 == 0) &&
            (romSize == ROM_1MB ==> b.rom0 == (if secondary % 2 == 1 then 0x20 else 0)) &&
            (romSize > ROM_1MB ==> b.rom0 == secondary * 0x20) &&
            b.ram == (if extRamSize >= EXT_RAM_32KB then secondary else 0) &&
            b.ram < 4
  {
  }

  /** How much external RAM mbc1_allocate gives a cartridge, in bytes; None is the fatal case
   *  (an unsupported RAM size, or a RAM cartridge whose header declares no RAM). */
  function RamAllocation(externalRam: bool, extRamSize: byte): (r: Option<nat>)
    ensures r == None <==> externalRam && extRamSize != EXT_RAM_8KB && extRamSize != EXT_RAM_32KB
    ensures r == Some(0) <==> !externalRam
  {
    if !externalRam then Some(0)
    else if extRamSize == EXT_RAM_8KB then Some(0x2000)
    else if extRamSize == EXT_RAM_32KB then Some(0x8000)
    else None
  }

  /** The MBC_1 record. The size codes are the cartridge's and never change. */
  class Mbc1 {
    const romSize: byte
    const extRamSize: byte
    const ramBanks: array?<byte>
    var bankMode: BankMode
    var romBankNumber: byte
    var secondaryBankNumber: byte
    var ramEnabled: bool
    var selectedRAMBank: byte
    var selectedROMBank: byte
    var selectedROM0Bank: byte

    /** The registers hold what their widths allow, the selected banks are the ones syncMBC1
     *  derives (or the power-on ones before any register write), and the RAM bank lies inside
     *  the allocated RAM. */
    predicate Valid()
      reads this
    {
      romBankNumber < 0x20 && secondaryBankNumber < 4 &&
      selectedRAMBank < 4 && (extRamSize < EXT_RAM_32KB ==> selectedRAMBank == 0) &&
      selectedROMBank <= RomBankMask(ClampedSize(romSize)) &&
      (ramBanks != null ==> RamAllocation(true, extRamSize) == Some(ramBanks.Length))
    }

    /** mbc1_allocate when it succeeds: ROM mode, registers 0, RAM disabled, selected ROM bank 1. */
    constructor (romSize: byte, extRamSize: byte, externalRam: bool)
      requires RamAllocation(externalRam, extRamSize) != None
      ensures this.romSize == romSize && this.extRamSize == extRamSize
      ensures bankMode == RomMode && romBankNumber == 0 && secondaryBankNumber == 0 && !ramEnabled
      ensures selectedRAMBank == 0 && selectedROMBank == 1 && selectedROM0Bank == 0
      ensures externalRam <==> ramBanks != null
      ensures ramBanks != null ==> fresh(ramBanks) && ramBanks.Length == RamAllocation(true, extRamSize).value
      ensures Valid()
    {
      this.romSize := romSize;
      this.extRamSize := extRamSize;
      bankMode := RomMode;
      romBankNumber := 0;
      secondaryBankNumber := 0;
      ramEnabled := false;
      selectedRAMBank := 0;
      selectedROMBank := 1;
      selectedROM0Bank := 0;
      if externalRam {
        ramBanks := new byte[RamAllocation(true, extRamSize).value];
      } else {
        ramBanks := null;
      }
    }

    /** syncMBC1: recompute the selected banks from the registers. */
    method Sync()
      requires romBankNumber < 0x20 && secondaryBankNumber < 4
      requires ramBanks != null ==> RamAllocation(true, extRamSize) == Some(ramBanks.Length)
      modifies this
      ensures bankMode == old(bankMode) && romBankNumber == old(romBankNumber)
      ensures secondaryBankNumber == old(secondaryBankNumber) && ramEnabled == old(ramEnabled)
      ensures Banks(selectedROMBank, selectedROM0Bank, selectedRAMBank) ==
              SyncBanks(bankMode, romBankNumber, secondaryBankNumber, romSize, extRamSize)
      ensures Valid()
    {
      var b := SyncBanks(bankMode, romBankNumber, secondaryBankNumber, romSize, extRamSize);
      SyncRomBankInRange(bankMode, romBankNumber, secondaryBankNumber, romSize, extRamSize);
      if bankMode == RamMode {
        SyncRamMode(romBankNumber, secondaryBankNumber, romSize, extRamSize);
      }
      selectedROMBank := b.rom;
      selectedROM0Bank := b.rom0;
      selectedRAMBank := b.ram;
    }

    /** The registers after mbc1_interceptROMWrite(addr, b) against those before it: the RAM
     *  gate alone changes below 0x2000; every other register write re-derives the banks. */
    twostate predicate Intercepted(addr: word, b: byte)
      reads this
    {
      (addr <= 0x1FFF ==> ramEnabled == (b & 0xF == 0xA) &&
                          bankMode == old(bankMode) && romBankNumber == old(romBankNumber) &&
                          secondaryBankNumber == old(secondaryBankNumber) &&
                          selectedROMBank == old(selectedROMBank) && selectedROM0Bank == old(selectedROM0Bank) &&
                          selectedRAMBank == old(selectedRAMBank)) &&
      (0x2000 <= addr <= 0x7FFF ==>
         ramEnabled == old(ramEnabled) &&
         romBankNumber == (if addr <= 0x3FFF then b & 0x1F else old(romBankNumber)) &&
         secondaryBankNumber == (if 0x4000 <= addr <= 0x5FFF then b & 0x3 else old(secondaryBankNumber)) &&
         bankMode == (if 0x6000 <= addr then (if b & 1 == 1 then RamMode else RomMode) else old(bankMode)) &&
         Banks(selectedROMBank, selectedROM0Bank, selectedRAMBank) ==
           SyncBanks(bankMode, romBankNumber, secondaryBankNumber, romSize, extRamSize)) &&
      (addr > 0x7FFF ==> unchanged(this))
    }

    /** mbc1_interceptROMWrite: a write into 0x0000-0x7FFF sets one of the four registers. */
    method InterceptROMWrite(addr: word, b: byte)
      requires Valid()
      modifies this
      ensures Valid() && Intercepted(addr, b)
    {
      if addr <= 0x1FFF {
        ramEnabled := b & 0xF == 0xA;
      } else if addr <= 0x3FFF {
        romBankNumber := b & 0x1F;
        Sync();
      } else if addr <= 0x5FFF {
        secondaryBankNumber := b & 0x3;
        Sync();
      } else if addr <= 0x7FFF {
        bankMode := if b & 1 == 1 then RamMode else RomMode;
        Sync();
      }
    }

    /** mbc1_readROM_N0: the 0x0000-0x3FFF window reads from the selected ROM0 bank. */
    function ReadROM_N0(rom: seq<byte>, addr: word): byte
      reads this
    {
      RomByte(rom, 0x4000 * ByteNat(selectedROM0Bank) + WordNat(addr))
    }

    /** mbc1_readROM_NN: the 0x4000-0x7FFF window (offset addr) reads from the selected bank. */
    function ReadROM_NN(rom: seq<byte>, addr: word): byte
      reads this
    {
      RomByte(rom, 0x4000 * ByteNat(selectedROMBank) + WordNat(addr))
    }

    /** The external RAM contents, empty when the cartridge has none. */
    function Ram(): seq<byte>
      reads this, ramBanks
    {
      if ramBanks == null then [] else ramBanks[..]
    }

    /** mbc1_readExternalRAM, addr being the offset into 0xA000-0xBFFF. */
    function ReadExternalRAM(addr: word): byte
      reads this, ramBanks
    {
      GatedRead(Ram(), ramBanks != null && ramEnabled, selectedRAMBank, WordNat(addr))
    }

    /** mbc1_writeExternalRAM, addr being the offset into 0xA000-0xBFFF. */
    method WriteExternalRAM(addr: word, b: byte)
      modifies ramBanks
      ensures Ram() == GatedWrite(old(Ram()), ramBanks != null && ramEnabled, selectedRAMBank, WordNat(addr), b)
    {
      if ramBanks == null || !ramEnabled {
        return;
      }
      var i := RamIndex(selectedRAMBank, WordNat(addr));
      if i < ramBanks.Length {
        ramBanks[i] := b;
        assert ramBanks[..] == old(ramBanks[..])[i := b];
      }
    }
  }
}
