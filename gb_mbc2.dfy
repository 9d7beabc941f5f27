// The MBC2 controller of gb/mbc2.c: one register range decoded by address bit 8, and 512
// bytes of built-in RAM addressed by the low nine address bits.

module GbMbc2 {
  import opened Bits
  import opened GbCart

  /** The bank a bank-select write asks switchROMBank for: the low nibble, masked to the ROM
   *  size, 0 read as 1. None is the 32 KiB ROM, where the write only warns. */
  function SelectBank(romSize: byte, b: byte): Option<byte>
  {
    if romSize == ROM_32KB then None
    else
      var n := b & 0xF;
      var masked := if romSize == ROM_64KB then n & 0x3 else if romSize == ROM_128KB then n & 0x7 else n;
      Some(if masked == 0 then 1 else masked)
  }

  /** A bank select never asks for bank 0, stays within the four bank bits, and stays inside
   *  the ROM for the 64, 128 and 256 KiB sizes MBC2 supports. */
  lemma SelectBankInRange(romSize: byte, b: byte)
    ensures SelectBank(romSize, b) == None <==> romSize == ROM_32KB
    ensures SelectBank(romSize, b).Some? ==>
              1 <= SelectBank(romSize, b).value <= 0xF &&
              (ROM_64KB <= romSize <= ROM_256KB ==> SelectBank(romSize, b).value <= RomBankMask(romSize))
  {
  }

  /** The low nibble picks the bank whenever it fits the ROM and is not 0. */
  lemma SelectBankIsNibble(romSize: byte, b: byte)
    requires romSize == ROM_256KB && b & 0xF != 0
    ensures SelectBank(romSize, b) == Some(b & 0xF)
  {
  }

  /** `addr & 0x1FF`: the built-in RAM cell an address reaches. */
  function Cell(addr: word): (i: nat)
    ensures i < 0x200
  {
    WordNat(addr & 0x1FF)
  }

  /** Addresses agreeing in their low nine bits reach the same cell. */
  lemma CellEchoes(addr: word, addr': word)
    requires addr & 0x1FF == addr' & 0x1FF
    ensures Cell(addr) == Cell(addr')
  {
  }

  /** The MBC_2 record: an enable flag and the built-in RAM, left uninitialised at allocation. */
  class Mbc2 {
    const romSize: byte
    const builtInRAM: array<byte>
    var ramEnabled: bool

    predicate Valid()
      reads this
    {
      builtInRAM.Length == 0x200
    }

    /** mbc2_allocate: RAM disabled. */
    constructor (romSize: byte)
      ensures this.romSize == romSize && !ramEnabled && fresh(builtInRAM) && Valid()
    {
      this.romSize := romSize;
      builtInRAM := new byte[0x200];
      ramEnabled := false;
    }

    /** mbc2_interceptROMWrite. Below 0x4000 address bit 8 chooses between a bank select, whose
     *  bank is handed to switchROMBank (which only computes an address, so no state changes) and
     *  reported in `switched`, and the RAM enable, set iff the byte is exactly 0x0A. Any write
     *  at or above 0x4000 is fatal (`fatal`) and changes nothing. */
    method InterceptROMWrite(addr: word, b: byte) returns (fatal: bool, switched: Option<byte>)
      modifies this
      ensures fatal <==> addr >= 0x4000
      ensures switched == (if addr < 0x4000 && (addr >> 8) & 1 == 1 then SelectBank(romSize, b) else None)
      ensures ramEnabled == (if addr < 0x4000 && (addr >> 8) & 1 == 0 then b == 0x0A else old(ramEnabled))
    {
      fatal := false;
      switched := None;
      if addr <= 0x3FFF {
        if (addr >> 8) & 1 == 1 {
          switched := SelectBank(romSize, b);
        } else {
          ramEnabled := b == 0x0A;
        }
      } else {
        fatal := true;
      }
    }

    /** mbc2_readROM: no ROM window is served by this controller. */
    function ReadROM(addr: word): (r: byte)
      ensures r == 0xFF
    {
      0xFF
    }

    function Ram(): seq<byte>
      reads builtInRAM
    {
      builtInRAM[..]
    }

    /** mbc2_readBuiltInRAM: the cell of the masked address, whether or not RAM is enabled
     *  (the disabled case only warns). */
    function ReadBuiltInRAM(addr: word): byte
      requires Valid()
      reads this, builtInRAM
    {
      builtInRAM[Cell(addr)]
    }

    /** mbc2_writeBuiltInRAM: store into the cell of the masked address, enabled or not. */
    method WriteBuiltInRAM(addr: word, b: byte)
      requires Valid()
      modifies builtInRAM
      ensures Ram() == old(Ram())[Cell(addr) := b]
    {
      builtInRAM[Cell(addr)] := b;
    }
  }

  /** A write to the built-in RAM is read back at every address congruent to it modulo 512,
   *  and every other cell keeps its byte. */
  lemma BuiltInRoundTrip(ram: seq<byte>, addr: word, addr': word, b: byte)
    requires |ram| == 0x200
    ensures addr & 0x1FF == addr' & 0x1FF ==> ram[Cell(addr) := b][Cell(addr')] == b
    ensures addr & 0x1FF != addr' & 0x1FF ==> ram[Cell(addr) := b][Cell(addr')] == ram[Cell(addr')]
  {
    if addr & 0x1FF != addr' & 0x1FF {
      assert Cell(addr) != Cell(addr');
    }
  }
}
