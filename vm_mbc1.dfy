// The MBC1 controller of the legacy flat-memory emulator (src/mbc1.c). Unlike the current
// controller it derives no bank numbers on reads: each register write that changes the mapping
// copies the new bank into MEM at once.

module VmMbc1 {
  import opened Bits
  import opened GbCart
  import opened VmBanks
  import GbMbc1

  type BankMode = GbMbc1.BankMode

  /** The mask the 0x2000-0x3FFF register applies for the four smallest ROM sizes; larger ROMs
   *  keep all five bits. */
  function LowBankMask(romSize: byte): (m: byte)
    ensures romSize <= ROM_256KB ==> m as int + 1 == BankCount(romSize)
  {
    if romSize == ROM_32KB then 0x01
    else if romSize == ROM_64KB then 0x03
    else if romSize == ROM_128KB then 0x07
    else if romSize == ROM_256KB then 0x0F
    else 0xFF
  }

  /** The bank number a write of b to 0x2000-0x3FFF selects: the low five bits, masked to the
   *  ROM size, with 0x00, 0x20, 0x40 and 0x60 moved up by one. */
  function BankSelect(b: byte, romSize: byte): (n: byte)
    ensures 1 <= n <= 0x1F
    ensures romSize <= ROM_256KB ==> ByteNat(n) < BankCount(romSize)
  {
    var k := (b & 0x1F) & LowBankMask(romSize);
    MaskedBelow(b & 0x1F, LowBankMask(romSize));
    if k == 0x00 || k == 0x20 || k == 0x40 || k == 0x60 then k + 1 else k
  }

  /** Only the five low bits of the written byte matter. */
  lemma BankSelectLowBits(b: byte, romSize: byte)
    ensures BankSelect(b, romSize) == BankSelect(b & 0x1F, romSize)
  {
  }

  /** Writing the number of a bank the ROM has, other than 0, selects that bank; writing 0
   *  selects bank 1. */
  lemma BankSelectExact(v: byte, romSize: byte)
    ensures v == 0 ==> BankSelect(v, romSize) == 1
    ensures 1 <= ByteNat(v) && (if romSize <= ROM_256KB then ByteNat(v) < BankCount(romSize) else v <= 0x1F) ==>
              BankSelect(v, romSize) == v
  {
    if romSize <= ROM_256KB && 1 <= ByteNat(v) < BankCount(romSize) {
      if romSize == ROM_32KB { assert v == 1; }
      else if romSize == ROM_64KB { assert v & 0x03 == v by { assert 1 <= v <= 3; } }
      else if romSize == ROM_128KB { assert v & 0x07 == v by { assert 1 <= v <= 7; } }
      else { assert v & 0x0F == v by { assert 1 <= v <= 0xF; } }
    }
  }

  /** The bank a write of the upper bits selects in ROM banking mode:
   *  `(upper << 5) + romBankNumber`, cut to six bits on 1 MiB ROMs and seven on 2 MiB ROMs. */
  function FullBank(upper: byte, low: byte, romSize: byte): byte
  {
    var f := (upper << 5) + low;
    if romSize == ROM_1MB then f & 0x3F
    else if romSize == ROM_2MB then f & 0x7F
    else f
  }

  /** With a five-bit low part and a two-bit upper part, the full bank is upper * 32 + low, except
   *  that a 1 MiB ROM drops the top bit of the upper part. */
  lemma FullBankValue(upper: byte, low: byte, romSize: byte)
    requires upper < 4 && low < 0x20
    ensures romSize == ROM_1MB ==> ByteNat(FullBank(upper, low, romSize)) == (ByteNat(upper) % 2) * 0x20 + ByteNat(low)
    ensures romSize != ROM_1MB ==> ByteNat(FullBank(upper, low, romSize)) == ByteNat(upper) * 0x20 + ByteNat(low)
  {
    var f := (upper << 5) + low;
    ShiftedSum(upper, low);
    if romSize == ROM_1MB {
      Masked6(f);
      if upper >= 2 {
        assert ByteNat(f) == 0x40 + (ByteNat(upper) - 2) * 0x20 + ByteNat(low);
      }
    } else if romSize == ROM_2MB {
      assert f & 0x7F == f by { assert f < 0x80; }
    }
  }

  /** On 1 and 2 MiB ROMs the full bank always lies inside the ROM. */
  lemma FullBankInRom(upper: byte, low: byte, romSize: byte)
    requires upper < 4 && low < 0x20 && (romSize == ROM_1MB || romSize == ROM_2MB)
    ensures ByteNat(FullBank(upper, low, romSize)) < BankCount(romSize)
  {
    assert BankCount(ROM_1MB) == 64 by {
      assert BankCount(1) == 4 && BankCount(2) == 8 && BankCount(3) == 16 && BankCount(4) == 32;
    }
    assert BankCount(ROM_2MB) == 128;
    FullBankValue(upper, low, romSize);
  }

  /** `(upper << 5) + low` does not wrap for a two-bit upper part and a five-bit low part. */
  lemma ShiftedSum(upper: byte, low: byte)
    requires upper < 4 && low < 0x20
    ensures ByteNat((upper << 5) + low) == ByteNat(upper) * 0x20 + ByteNat(low)
    ensures (upper << 5) + low < 0x80
  {
    if upper == 0 { } else if upper == 1 { } else if upper == 2 { } else { }
  }

  /** Cutting a seven-bit bank number to six bits drops its top bit. */
  lemma Masked6(f: byte)
    requires f < 0x80
    ensures ByteNat(f & 0x3F) == ByteNat(f) % 0x40
  {
  }

  /** The MBC_1 registers. */
  datatype Registers = Registers(ramEnabled: bool, romBankNumber: byte, secondaryBankNumber: byte, bankMode: BankMode)

  /** The registers mbc1_allocate sets. */
  const INITIAL: Registers := Registers(false, 1, 0, GbMbc1.RomMode)

  /** The bank register holds a bank 1..0x1F and no write reaches the secondary register. */
  predicate RegsValid(r: Registers)
  {
    1 <= r.romBankNumber <= 0x1F && r.secondaryBankNumber == 0
  }

  /** The controller registers together with the flat memory whose ROM windows they map. */
  datatype Mapping = Mapping(regs: Registers, mem: seq<byte>)

  /** What mbc1_interceptROMWrite does to the registers and to MEM on a write of b to a
   *  register address (0x0000-0x7FFF). */
  function RomWrite(r: Registers, mem: seq<byte>, rom: seq<byte>, romSize: byte, addr: word, b: byte): (after: Mapping)
    requires |mem| == MEM_SIZE && addr <= 0x7FFF
    ensures |after.mem| == MEM_SIZE
    ensures RegsValid(r) ==> RegsValid(after.regs)
  {
    if addr <= 0x1FFF then
      Mapping(r.(ramEnabled := b & 0xF == 0xA), mem)
    else if addr <= 0x3FFF then
      var n := BankSelect(b, romSize);
      Mapping(r.(romBankNumber := n), Load(mem, BANK_SIZE, BankImage(rom, ByteNat(n))))
    else if addr <= 0x5FFF then
      if r.bankMode == GbMbc1.RomMode && romSize > ROM_512KB then
        Mapping(r, Load(mem, BANK_SIZE, BankImage(rom, ByteNat(FullBank(b & 3, r.romBankNumber, romSize)))))
      else Mapping(r, mem)
    else if b == 0 then
      Mapping(r.(bankMode := GbMbc1.RomMode), Load(mem, 0, BankImage(rom, 0)))
    else
      Mapping(r.(bankMode := GbMbc1.RamMode), if romSize >= ROM_1MB then Load(mem, 0, BankImage(rom, 0)) else mem)
  }

  /** A register write never touches MEM above 0x7FFF (RAM, VRAM, I/O). */
  lemma RomWriteKeepsUpperMemory(r: Registers, mem: seq<byte>, rom: seq<byte>, romSize: byte, addr: word, b: byte)
    requires |mem| == MEM_SIZE && addr <= 0x7FFF
    ensures RomWrite(r, mem, rom, romSize, addr, b).mem[2 * BANK_SIZE..] == mem[2 * BANK_SIZE..]
  {
    var after := RomWrite(r, mem, rom, romSize, addr, b);
    if after.mem != mem {
      if 0x2000 <= addr <= 0x5FFF {
        LoadOutside(mem, BANK_SIZE, after.mem[BANK_SIZE..2 * BANK_SIZE], 2 * BANK_SIZE, MEM_SIZE);
      } else {
        LoadOutside(mem, 0, BankImage(rom, 0), 2 * BANK_SIZE, MEM_SIZE);
      }
    }
  }

  /** The fixed window 0x0000-0x3FFF is either left alone or reloaded with bank 0: in RAM banking
   *  mode the remap of 1 MiB ROMs uses the secondary register, which is always 0. */
  lemma FixedWindowOnlyBank0(r: Registers, mem: seq<byte>, rom: seq<byte>, romSize: byte, addr: word, b: byte)
    requires |mem| == MEM_SIZE && addr <= 0x7FFF
    ensures var after := RomWrite(r, mem, rom, romSize, addr, b).mem;
            after[..BANK_SIZE] == mem[..BANK_SIZE] || after[..BANK_SIZE] == BankImage(rom, 0)
  {
    var after := RomWrite(r, mem, rom, romSize, addr, b).mem;
    if 0x2000 <= addr <= 0x5FFF && after != mem {
      LoadOutside(mem, BANK_SIZE, after[BANK_SIZE..2 * BANK_SIZE], 0, BANK_SIZE);
    } else if 0x6000 <= addr && after != mem {
      LoadInside(mem, 0, BankImage(rom, 0));
    }
  }

  /** The switchable window 0x4000-0x7FFF is either left alone or loaded with a bank other than
   *  bank 0, and on ROMs up to 2 MiB with a bank the ROM has. */
  lemma SwitchableWindowNeverBank0(r: Registers, mem: seq<byte>, rom: seq<byte>, romSize: byte, addr: word, b: byte)
    requires |mem| == MEM_SIZE && addr <= 0x7FFF && RegsValid(r)
    ensures var after := RomWrite(r, mem, rom, romSize, addr, b).mem;
            after[BANK_SIZE..2 * BANK_SIZE] == mem[BANK_SIZE..2 * BANK_SIZE] ||
            exists n: nat :: 1 <= n && (romSize <= ROM_2MB ==> n < BankCount(romSize)) &&
                             after[BANK_SIZE..2 * BANK_SIZE] == BankImage(rom, n)
  {
    var after := RomWrite(r, mem, rom, romSize, addr, b).mem;
    if 0x2000 <= addr <= 0x3FFF {
      var n := ByteNat(BankSelect(b, romSize));
      LoadInside(mem, BANK_SIZE, BankImage(rom, n));
      if romSize <= ROM_2MB && romSize > ROM_256KB {
        assert BankCount(ROM_512KB) == 32 by {
          assert BankCount(1) == 4 && BankCount(2) == 8 && BankCount(3) == 16;
        }
        assert BankCount(romSize) >= 32;
      }
      assert after[BANK_SIZE..2 * BANK_SIZE] == BankImage(rom, n);
    } else if 0x4000 <= addr <= 0x5FFF && r.bankMode == GbMbc1.RomMode && romSize > ROM_512KB {
      var upper := b & 3;
      var n := ByteNat(FullBank(upper, r.romBankNumber, romSize));
      FullBankValue(upper, r.romBankNumber, romSize);
      if romSize <= ROM_2MB {
        FullBankInRom(upper, r.romBankNumber, romSize);
      }
      LoadInside(mem, BANK_SIZE, BankImage(rom, n));
      assert after[BANK_SIZE..2 * BANK_SIZE] == BankImage(rom, n);
    } else if 0x6000 <= addr && after != mem {
      LoadOutside(mem, 0, BankImage(rom, 0), BANK_SIZE, 2 * BANK_SIZE);
    }
  }

  /** The MBC_1 record. ramBanks is NULL without external RAM. */
  class Mbc1 {
    const ramBanks: array?<byte>
    var ramEnabled: bool
    var romBankNumber: byte
    var secondaryBankNumber: byte
    var bankMode: BankMode

    function Regs(): Registers
      reads this
    {
      Registers(ramEnabled, romBankNumber, secondaryBankNumber, bankMode)
    }

    /** The bank register holds a bank 1..0x1F, no write reaches the secondary register, and the
     *  RAM is one or four 8 KiB banks. */
    predicate Valid()
      reads this
    {
      RegsValid(Regs()) &&
      (ramBanks != null ==> ramBanks.Length == 0x2000 || ramBanks.Length == 0x8000)
    }

    /** The record mbc1_allocate fills, with `ramBytes` of RAM (none for 0). */
    constructor (ramBytes: nat)
      requires ramBytes == 0 || ramBytes == 0x2000 || ramBytes == 0x8000
      ensures Regs() == INITIAL && Valid()
      ensures ramBytes == 0 <==> ramBanks == null
      ensures ramBanks != null ==> fresh(ramBanks) && ramBanks.Length == ramBytes
    {
      ramEnabled, romBankNumber, secondaryBankNumber, bankMode := false, 1, 0, GbMbc1.RomMode;
      if ramBytes == 0 {
        ramBanks := null;
      } else {
        ramBanks := new byte[ramBytes];
      }
    }

    /** mbc1_switchROMBankingMode: ROM mode, and bank 0 copied back into 0x0000-0x3FFF (the
     *  RAM bank switch it may call is empty). */
    method SwitchROMBankingMode(mem: array<byte>, rom: seq<byte>)
      requires mem.Length == MEM_SIZE
      modifies this, mem
      ensures Regs() == old(Regs()).(bankMode := GbMbc1.RomMode)
      ensures mem[..] == Load(old(mem[..]), 0, BankImage(rom, 0))
    {
      bankMode := GbMbc1.RomMode;
      SwitchRestrictedROMBank(mem, rom, 0);
    }

    /** mbc1_switchRAMBankingMode: RAM mode; 1 MiB and larger ROMs get their 0x0000 window
     *  remapped, which switchRestrictedROMBank turns into a fresh copy of bank 0. */
    method SwitchRAMBankingMode(mem: array<byte>, rom: seq<byte>, romSize: byte)
      requires mem.Length == MEM_SIZE
      modifies this, mem
      ensures Regs() == old(Regs()).(bankMode := GbMbc1.RamMode)
      ensures romSize >= ROM_1MB ==> mem[..] == Load(old(mem[..]), 0, BankImage(rom, 0))
      ensures romSize < ROM_1MB ==> mem[..] == old(mem[..])
    {
      bankMode := GbMbc1.RamMode;
      if romSize >= ROM_1MB {
        SwitchRestrictedROMBank(mem, rom, ByteNat(secondaryBankNumber) * 0x20);
      }
    }

    /** 0x0000-0x1FFF: RAM is enabled exactly by a low nibble of 0xA. */
    method WriteRamEnable(mem: array<byte>, rom: seq<byte>, romSize: byte, addr: word, b: byte)
      requires mem.Length == MEM_SIZE && addr <= 0x1FFF
      modifies this
      ensures Mapping(Regs(), mem[..]) == RomWrite(old(Regs()), mem[..], rom, romSize, addr, b)
    {
      ramEnabled := b & 0xF == 0xA;
    }

    /** 0x2000-0x3FFF: the register takes the selected bank, which is copied in at once. */
    method WriteBankNumber(mem: array<byte>, rom: seq<byte>, romSize: byte, addr: word, b: byte)
      requires mem.Length == MEM_SIZE && 0x2000 <= addr <= 0x3FFF
      modifies this, mem
      ensures Mapping(Regs(), mem[..]) == RomWrite(old(Regs()), old(mem[..]), rom, romSize, addr, b)
    {
      var n := BankSelect(b, romSize);
      romBankNumber := n;
      SwitchROMBank(mem, rom, ByteNat(n));
    }

    /** 0x4000-0x5FFF: in ROM mode on a ROM over 512 KiB the upper bits and the stored low bank
     *  select a bank that is copied in, without being stored; otherwise (including RAM mode,
     *  whose RAM bank switch is empty) nothing happens. */
    method WriteUpperBits(mem: array<byte>, rom: seq<byte>, romSize: byte, addr: word, b: byte)
      requires mem.Length == MEM_SIZE && 0x4000 <= addr <= 0x5FFF
      modifies mem
      ensures Mapping(Regs(), mem[..]) == RomWrite(Regs(), old(mem[..]), rom, romSize, addr, b)
    {
      if bankMode == GbMbc1.RomMode && romSize > ROM_512KB {
        SwitchROMBank(mem, rom, ByteNat(FullBank(b & 3, romBankNumber, romSize)));
      }
    }

    /** 0x6000-0x7FFF: 0 selects ROM banking mode, anything else RAM banking mode. */
    method WriteBankingMode(mem: array<byte>, rom: seq<byte>, romSize: byte, addr: word, b: byte)
      requires mem.Length == MEM_SIZE && 0x6000 <= addr <= 0x7FFF
      modifies this, mem
      ensures Mapping(Regs(), mem[..]) == RomWrite(old(Regs()), old(mem[..]), rom, romSize, addr, b)
    {
      if b == 0 {
        SwitchROMBankingMode(mem, rom);
      } else {
        SwitchRAMBankingMode(mem, rom, romSize);
      }
    }

    /** mbc1_interceptROMWrite, split by register range; a write outside 0x0000-0x7FFF is the
     *  fatal case (ok false) and changes nothing. */
    method InterceptROMWrite(mem: array<byte>, rom: seq<byte>, romSize: byte, addr: word, b: byte) returns (ok: bool)
      requires Valid() && mem.Length == MEM_SIZE
      modifies this, mem
      ensures Valid()
      ensures ok <==> addr <= 0x7FFF
      ensures ok ==> Mapping(Regs(), mem[..]) == RomWrite(old(Regs()), old(mem[..]), rom, romSize, addr, b)
      ensures !ok ==> Regs() == old(Regs()) && mem[..] == old(mem[..])
    {
      ok := true;
      if addr <= 0x1FFF {
        WriteRamEnable(mem, rom, romSize, addr, b);
      } else if addr <= 0x3FFF {
        WriteBankNumber(mem, rom, romSize, addr, b);
      } else if addr <= 0x5FFF {
        WriteUpperBits(mem, rom, romSize, addr, b);
      } else if addr <= 0x7FFF {
        WriteBankingMode(mem, rom, romSize, addr, b);
      } else {
        ok := false;
      }
    }

    /** The external RAM contents, empty when there is none. */
    function Ram(): seq<byte>
      reads this, ramBanks
    {
      if ramBanks == null then [] else ramBanks[..]
    }

    /** mbc1_writeExternalRAM: the RAM becomes RamWrite of the old RAM. */
    method WriteExternalRAM(addr: word, b: byte)
      requires Valid() && 0xA000 <= WordNat(addr) <= 0xBFFF
      modifies ramBanks
      ensures Ram() == RamWrite(Regs(), old(Ram()), addr, b)
    {
      if ramBanks == null || !ramEnabled {
        return;
      }
      ramBanks[RamOffset(Regs(), addr)] := b;
    }
  }

  /** MBC1 RAM is absent, one 8 KiB bank or four. */
  predicate RamShape(ram: seq<byte>)
  {
    |ram| == 0 || |ram| == 0x2000 || |ram| == 0x8000
  }

  /** The RAM offset of an address of 0xA000-0xBFFF: `addr - 0xA000`, plus
   *  `secondaryBankNumber * 0x2000` in RAM banking mode. */
  function RamOffset(r: Registers, addr: word): (k: nat)
    requires RegsValid(r) && 0xA000 <= WordNat(addr) <= 0xBFFF
    ensures k == WordNat(addr) - 0xA000 && k < 0x2000
  {
    var rel := WordNat(addr) - 0xA000;
    if r.bankMode == GbMbc1.RomMode then rel else rel + ByteNat(r.secondaryBankNumber) * 0x2000
  }

  /** mbc1_readExternalRAM: 0 without RAM or while RAM is disabled, otherwise the byte at the
   *  address's offset. */
  function RamRead(r: Registers, ram: seq<byte>, addr: word): (v: byte)
    requires RegsValid(r) && RamShape(ram) && 0xA000 <= WordNat(addr) <= 0xBFFF
  {
    if |ram| == 0 || !r.ramEnabled then 0 else ram[RamOffset(r, addr)]
  }

  /** mbc1_writeExternalRAM: dropped without RAM or while RAM is disabled, otherwise the byte at
   *  the address's offset is replaced. */
  function RamWrite(r: Registers, ram: seq<byte>, addr: word, b: byte): (ram': seq<byte>)
    requires RegsValid(r) && RamShape(ram) && 0xA000 <= WordNat(addr) <= 0xBFFF
    ensures RamShape(ram') && |ram'| == |ram|
  {
    if |ram| == 0 || !r.ramEnabled then ram else ram[RamOffset(r, addr) := b]
  }

  /** Reading RAM back: an enabled RAM returns the byte last written at that address and keeps
   *  every other address; disabled or absent RAM reads 0 and ignores the write. */
  lemma RamReadAfterWrite(r: Registers, ram: seq<byte>, addr: word, addr': word, b: byte)
    requires RegsValid(r) && RamShape(ram)
    requires 0xA000 <= WordNat(addr) <= 0xBFFF && 0xA000 <= WordNat(addr') <= 0xBFFF
    ensures |ram| == 0 || !r.ramEnabled ==> RamRead(r, RamWrite(r, ram, addr, b), addr') == 0
    ensures |ram| > 0 && r.ramEnabled && addr' == addr ==> RamRead(r, RamWrite(r, ram, addr, b), addr') == b
    ensures addr' != addr ==> RamRead(r, RamWrite(r, ram, addr, b), addr') == RamRead(r, ram, addr')
  {
    if addr' != addr {
      WordNatInjective(addr, addr');
    }
  }

  /** mbc1_allocate: fatal (ok false, no controller) for a RAM cartridge whose size is neither
   *  8 KiB nor 32 KiB; otherwise a controller in its initial state, with bank 0 copied into
   *  0x0000-0x3FFF by the switch to ROM banking mode. */
  method Allocate(mem: array<byte>, rom: seq<byte>, extRamSize: byte, externalRam: bool) returns (ok: bool, m: Mbc1?)
    requires mem.Length == MEM_SIZE
    modifies mem
    ensures ok <==> GbMbc1.RamAllocation(externalRam, extRamSize) != None
    ensures !ok ==> m == null && mem[..] == old(mem[..])
    ensures ok ==> m != null && fresh(m) && m.Valid() && m.Regs() == INITIAL
    ensures ok ==> (m.ramBanks != null <==> externalRam) && (m.ramBanks != null ==> fresh(m.ramBanks))
    ensures ok && m.ramBanks != null ==> m.ramBanks.Length == GbMbc1.RamAllocation(true, extRamSize).value
    ensures ok ==> mem[..] == Load(old(mem[..]), 0, BankImage(rom, 0))
  {
    var plan := GbMbc1.RamAllocation(externalRam, extRamSize);
    if plan == None {
      return false, null;
    }
    m := new Mbc1(plan.value);
    m.SwitchROMBankingMode(mem, rom);
    ok := true;
  }
}
