// The MBC3 controller of gb/mbc3.c: ROM bank select, a shared RAM-bank / RTC-register select,
// the latch register, and external RAM that is reached whenever a RAM bank is mapped.

module GbMbc3 {
  import opened Bits
  import opened GbCart

  /** How much external RAM mbc3_allocate gives a cartridge, in bytes; None is the fatal case,
   *  an unsupported RAM size on a RAM cartridge. A RAM cartridge declaring no RAM gets none. */
  function RamAllocation(externalRam: bool, extRamSize: byte): (r: Option<nat>)
    ensures r == None <==> externalRam && extRamSize != EXT_RAM_0 && extRamSize != EXT_RAM_8KB &&
                           extRamSize != EXT_RAM_32KB
    ensures r == Some(0) <==> !externalRam || extRamSize == EXT_RAM_0
  {
    if !externalRam || extRamSize == EXT_RAM_0 then Some(0)
    else if extRamSize == EXT_RAM_8KB then Some(0x2000)
    else if extRamSize == EXT_RAM_32KB then Some(0x8000)
    else None
  }

  /** The bank a 0x2000-0x3FFF write selects: the byte masked to the ROM size, 0 read as 1. */
  function SelectRomBank(romSize: byte, b: byte): byte
  {
    var n := b & RomBankMask(romSize);
    if n == 0 then 1 else n
  }

  /** The selected bank is never 0 and always inside the ROM. */
  lemma SelectRomBankInRange(romSize: byte, b: byte)
    ensures 1 <= SelectRomBank(romSize, b) && (romSize > ROM_32KB ==> SelectRomBank(romSize, b) <= RomBankMask(romSize))
  {
    MaskedBelow(b, RomBankMask(romSize));
  }

  /** For the sizes the mask describes exactly, the bank number is below the ROM's bank count. */
  lemma SelectRomBankBelowCount(romSize: byte, b: byte)
    requires ROM_32KB < romSize < 7
    ensures ByteNat(SelectRomBank(romSize, b)) < BankCount(romSize)
  {
    SelectRomBankInRange(romSize, b);
    var m := RomBankMask(romSize);
    assert ByteNat(SelectRomBank(romSize, b)) <= ByteNat(m) by {
      ByteNatMonotone(SelectRomBank(romSize, b), m);
    }
  }

  /** The MBC_3 record. `rtcSupported` is fixed at allocation. */
  class Mbc3 {
    const romSize: byte
    const extRamSize: byte
    const rtcSupported: bool
    const ramBanks: array?<byte>
    var latchRegister: byte
    var ramRtcBankNumber: byte
    var romBankNumber: byte
    var ramRtcEnabled: bool
    var selectedRTCRegister: byte
    var selectedRAMBank: byte
    var selectedROMBank: byte

    /** A mapped RAM bank lies inside the allocated RAM. */
    predicate Valid()
      reads this
    {
      selectedRAMBank < 4 && (extRamSize != EXT_RAM_32KB ==> selectedRAMBank == 0) &&
      (ramBanks != null ==> RamAllocation(true, extRamSize) == Some(ramBanks.Length) && ramBanks.Length > 0)
    }

    /** mbc3_allocate when it succeeds: latch 1, ROM bank 1, every other register 0, RAM/RTC
     *  disabled. */
    constructor (romSize: byte, extRamSize: byte, externalRam: bool, rtc: bool)
      requires RamAllocation(externalRam, extRamSize) != None
      ensures this.romSize == romSize && this.extRamSize == extRamSize && rtcSupported == rtc
      ensures latchRegister == 1 && ramRtcBankNumber == 0 && romBankNumber == 0 && !ramRtcEnabled
      ensures selectedRTCRegister == 0 && selectedRAMBank == 0 && selectedROMBank == 1
      ensures (ramBanks != null) <==> RamAllocation(externalRam, extRamSize) != Some(0)
      ensures ramBanks != null ==> fresh(ramBanks) && ramBanks.Length == RamAllocation(externalRam, extRamSize).value
      ensures Valid()
    {
      this.romSize := romSize;
      this.extRamSize := extRamSize;
      rtcSupported := rtc;
      latchRegister := 1;
      ramRtcBankNumber := 0;
      romBankNumber := 0;
      ramRtcEnabled := false;
      selectedRTCRegister := 0;
      selectedRAMBank := 0;
      selectedROMBank := 1;
      var size := RamAllocation(externalRam, extRamSize).value;
      if size == 0 {
        ramBanks := null;
      } else {
        ramBanks := new byte[size];
      }
    }

    /** The registers after mbc3_interceptROMWrite(addr, b) against those before it. */
    twostate predicate Intercepted(addr: word, b: byte)
      reads this
    {
      var n := b & 0xF;
      var ramSel := 0x4000 <= addr <= 0x5FFF && n <= 3 && ramBanks != null;
      var rtcSel := 0x4000 <= addr <= 0x5FFF && 0x08 <= n <= 0x0C && rtcSupported;
      var bank := if extRamSize == EXT_RAM_8KB then 0 else n;
      ramRtcEnabled == (if addr <= 0x1FFF then b & 0xF == 0xA else old(ramRtcEnabled)) &&
      romBankNumber == (if 0x2000 <= addr <= 0x3FFF then b & 0x7F else old(romBankNumber)) &&
      selectedROMBank == (if 0x2000 <= addr <= 0x3FFF then SelectRomBank(romSize, b) else old(selectedROMBank)) &&
      latchRegister == (if 0x6000 <= addr <= 0x7FFF then b else old(latchRegister)) &&
      selectedRAMBank == (if ramSel then bank else old(selectedRAMBank)) &&
      selectedRTCRegister == (if rtcSel then n else old(selectedRTCRegister)) &&
      ramRtcBankNumber == (if ramSel then bank else if rtcSel then n else old(ramRtcBankNumber))
    }

    /** mbc3_interceptROMWrite. 0x4000-0x5FFF takes the low nibble: 0-3 map a RAM bank (only when
     *  RAM exists; always bank 0 for 8 KiB), 0x08-0x0C map an RTC register (only when the RTC is
     *  supported), anything else is ignored. 0x6000-0x7FFF stores the latch byte; the latch
     *  itself has no effect. Writes above 0x7FFF change nothing. */
    method InterceptROMWrite(addr: word, b: byte)
      requires Valid()
      modifies this
      ensures Valid() && Intercepted(addr, b)
    {
      if addr <= 0x1FFF {
        ramRtcEnabled := b & 0xF == 0xA;
      } else if addr <= 0x3FFF {
        romBankNumber := b & 0x7F;
        selectedROMBank := SelectRomBank(romSize, b);
      } else if addr <= 0x5FFF {
        var n := b & 0xF;
        if n <= 3 {
          if ramBanks == null {
            return;
          }
          if extRamSize == EXT_RAM_8KB {
            n := 0;
          }
          ramRtcBankNumber := n;
          selectedRAMBank := n;
        } else if 0x08 <= n <= 0x0C {
          if !rtcSupported {
            return;
          }
          ramRtcBankNumber := n;
          selectedRTCRegister := n;
        }
      } else if addr <= 0x7FFF {
        latchRegister := b;
      }
    }

    /** mbc3_readROM_N0: the fixed window reads the image directly. */
    function ReadROM_N0(rom: seq<byte>, addr: word): byte
    {
      RomByte(rom, WordNat(addr))
    }

    /** mbc3_readROM_NN: the switchable window, addr being the offset into 0x4000-0x7FFF. */
    function ReadROM_NN(rom: seq<byte>, addr: word): byte
      reads this
    {
      RomByte(rom, 0x4000 * ByteNat(selectedROMBank) + WordNat(addr))
    }

    function Ram(): seq<byte>
      reads this, ramBanks
    {
      if ramBanks == null then [] else ramBanks[..]
    }

    /** Whether the external RAM window maps RAM (a bank number below 4) rather than an RTC
     *  register. The enable flag is not consulted. */
    predicate RamMapped()
      reads this
    {
      ramRtcBankNumber < 4
    }

    /** mbc3_readExternalRAM: mapped RAM reads the selected bank (0xFF when there is no RAM);
     *  an RTC register reads 0. */
    function ReadExternalRAM(addr: word): byte
      reads this, ramBanks
    {
      if RamMapped() then GatedRead(Ram(), ramBanks != null, selectedRAMBank, WordNat(addr)) else 0
    }

    /** mbc3_writeExternalRAM: mapped RAM stores into the selected bank; RTC writes are dropped. */
    method WriteExternalRAM(addr: word, b: byte)
      modifies ramBanks
      ensures Ram() == GatedWrite(old(Ram()), RamMapped() && ramBanks != null, selectedRAMBank, WordNat(addr), b)
    {
      if !RamMapped() || ramBanks == null {
        return;
      }
      var i := RamIndex(selectedRAMBank, WordNat(addr));
      if i < ramBanks.Length {
        ramBanks[i] := b;
        assert ramBanks[..] == old(ramBanks[..])[i := b];
      }
    }
  }

  /** With RAM present and mapped, a write is read back whatever the enable flag says, and the
   *  bank the controller can select always holds the 0x2000 addresses of the window. */
  lemma SelectedBankFits(extRamSize: byte, size: nat, bank: byte)
    requires RamAllocation(true, extRamSize) == Some(size) && size > 0
    requires bank < 4 && (extRamSize != EXT_RAM_32KB ==> bank == 0)
    ensures RamIndex(bank, 0x1FFF) < size
  {
  }
}
