// The MBC5 controller of gb/mbc5.c: an 8-bit ROM bank register (bank 0 allowed), a ninth-bit
// register that cannot reach the 8-bit field, a RAM bank register masked to the RAM size, and
// external RAM reached only while enabled.

module GbMbc5 {
  import opened Bits
  import opened GbCart

  /** How much external RAM mbc5_allocate gives a cartridge, in bytes; None is the fatal case. */
  function RamAllocation(externalRam: bool, extRamSize: byte): (r: Option<nat>)
    ensures r == None <==> externalRam && extRamSize != EXT_RAM_0 && extRamSize != EXT_RAM_8KB &&
                           extRamSize != EXT_RAM_32KB && extRamSize != EXT_RAM_128KB
    ensures r == Some(0) <==> !externalRam || extRamSize == EXT_RAM_0
  {
    if !externalRam || extRamSize == EXT_RAM_0 then Some(0)
    else if extRamSize == EXT_RAM_8KB then Some(0x2000)
    else if extRamSize == EXT_RAM_32KB then Some(0x8000)
    else if extRamSize == EXT_RAM_128KB then Some(0x20000)
    else None
  }

  /** The RAM-bank bits a RAM size decodes: two for 32 KiB, four for 128 KiB, none otherwise. */
  function RamBankMask(extRamSize: byte): byte
  {
    if extRamSize == EXT_RAM_32KB then 0x3 else if extRamSize == EXT_RAM_128KB then 0xF else 0
  }

  /** The ninth bank bit, `selectedROMBank |= (byte & 1) << 8`: the shifted bit lies above the
   *  eight bits of the uint8_t field, so the field keeps its value. */
  function NinthBit(selected: byte, b: byte): byte
  {
    (((selected as bv32) | (((b & 1) as bv32) << 8)) & 0xFF) as byte
  }

  lemma NinthBitNoEffect(selected: byte, b: byte)
    ensures NinthBit(selected, b) == selected
  {
  }

  /** Every RAM bank the register can select lies inside the RAM the cartridge was given. */
  lemma SelectedBankFits(extRamSize: byte, size: nat, b: byte)
    requires RamAllocation(true, extRamSize) == Some(size) && size > 0
    ensures RamIndex(b & RamBankMask(extRamSize), 0x1FFF) < size
  {
    var bank := b & RamBankMask(extRamSize);
    MaskedBelow(b, RamBankMask(extRamSize));
    ByteNatMonotone(bank, RamBankMask(extRamSize));
  }

  /** The MBC_5 record. */
  class Mbc5 {
    const romSize: byte
    const extRamSize: byte
    const ramBanks: array?<byte>
    var selectedROMBank: byte
    var selectedRAMBank: byte
    var ramEnabled: bool

    /** The RAM bank never has bits the RAM size does not decode. */
    predicate Valid()
      reads this
    {
      selectedRAMBank & RamBankMask(extRamSize) == selectedRAMBank &&
      (ramBanks != null ==> RamAllocation(true, extRamSize) == Some(ramBanks.Length) && ramBanks.Length > 0)
    }

    /** mbc5_allocate when it succeeds: ROM bank 1, RAM bank 0, RAM disabled. */
    constructor (romSize: byte, extRamSize: byte, externalRam: bool)
      requires RamAllocation(externalRam, extRamSize) != None
      ensures this.romSize == romSize && this.extRamSize == extRamSize
      ensures selectedROMBank == 1 && selectedRAMBank == 0 && !ramEnabled
      ensures (ramBanks != null) <==> RamAllocation(externalRam, extRamSize) != Some(0)
      ensures ramBanks != null ==> fresh(ramBanks) && ramBanks.Length == RamAllocation(externalRam, extRamSize).value
      ensures Valid()
    {
      this.romSize := romSize;
      this.extRamSize := extRamSize;
      selectedROMBank := 1;
      selectedRAMBank := 0;
      ramEnabled := false;
      var size := RamAllocation(externalRam, extRamSize).value;
      if size == 0 {
        ramBanks := null;
      } else {
        ramBanks := new byte[size];
      }
    }

    /** The registers after mbc5_interceptROMWrite(addr, b) against those before it: the
     *  ninth-bit write leaves the ROM bank as it was. */
    twostate predicate Intercepted(addr: word, b: byte)
      reads this
    {
      ramEnabled == (if addr <= 0x1FFF then b & 0xF == 0xA else old(ramEnabled)) &&
      selectedROMBank == (if 0x2000 <= addr <= 0x2FFF then b & RomBankMask(romSize) else old(selectedROMBank)) &&
      selectedRAMBank == (if 0x4000 <= addr <= 0x5FFF then b & RamBankMask(extRamSize) else old(selectedRAMBank))
    }

    /** mbc5_interceptROMWrite: 0x0000-0x1FFF enables RAM iff the low nibble is 0xA,
     *  0x2000-0x2FFF selects the byte masked to the ROM size (bank 0 included), 0x3000-0x3FFF
     *  (8 MiB ROMs only) ORs in the ninth bit, and 0x4000-0x5FFF selects the RAM bank. */
    method InterceptROMWrite(addr: word, b: byte)
      requires Valid()
      modifies this
      ensures Valid() && Intercepted(addr, b)
    {
      if addr <= 0x1FFF {
        ramEnabled := b & 0xF == 0xA;
      } else if addr <= 0x2FFF {
        selectedROMBank := b & RomBankMask(romSize);
      } else if addr <= 0x3FFF {
        if romSize != ROM_8MB {
          return;
        }
        selectedROMBank := NinthBit(selectedROMBank, b);
      } else if addr <= 0x5FFF {
        selectedRAMBank := b & RamBankMask(extRamSize);
      }
    }

    /** mbc5_readROM_N0: the fixed window reads the image directly. */
    function ReadROM_N0(rom: seq<byte>, addr: word): byte
    {
      RomByte(rom, WordNat(addr))
    }

    /** mbc5_readROM_NN: the switchable window, addr being the offset into 0x4000-0x7FFF. */
    function ReadROM_NN(rom: seq<byte>, addr: word): byte
      reads this
    {
      RomByte(rom, 0x4000 * ByteNat(selectedROMBank) + WordNat(addr))
    }

    function Ram(): seq<byte>
      reads this, ramBanks
    {
      if ramBanks == null then [] else ramBanks[..]
    }

    /** mbc5_readExternalRAM: the selected bank while enabled and present, else 0xFF. */
    function ReadExternalRAM(addr: word): byte
      reads this, ramBanks
    {
      GatedRead(Ram(), ramEnabled && ramBanks != null, selectedRAMBank, WordNat(addr))
    }

    /** mbc5_writeExternalRAM: stores into the selected bank while enabled and present. */
    method WriteExternalRAM(addr: word, b: byte)
      modifies ramBanks
      ensures Ram() == GatedWrite(old(Ram()), ramEnabled && ramBanks != null, selectedRAMBank, WordNat(addr), b)
    {
      if !ramEnabled || ramBanks == null {
        return;
      }
      var i := RamIndex(selectedRAMBank, WordNat(addr));
      if i < ramBanks.Length {
        ramBanks[i] := b;
        assert ramBanks[..] == old(ramBanks[..])[i := b];
      }
    }
  }
}
