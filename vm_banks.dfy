// The bank copies of the legacy flat-memory emulator (src/mbc.c and the boot mapping of
// src/vm.c): the visible ROM is a copy in the 64 KiB MEM array, refreshed by memcpy whenever a
// controller switches banks.

module VmBanks {
  import opened Bits
  import opened GbCart

  /** Size of the flat address space. */
  const MEM_SIZE: nat := 0x10000
  /** Size of a ROM bank. */
  const BANK_SIZE: nat := 0x4000

  /** `count` cartridge bytes from offset `from`. A byte past the end of the image (a read
   *  past the allocation in C) is 0xFF. */
  function ImageWindow(rom: seq<byte>, from: nat, count: nat): (w: seq<byte>)
    ensures |w| == count
    ensures forall j :: 0 <= j < count ==> w[j] == RomByte(rom, from + j)
  {
    seq(count, j requires 0 <= j < count => RomByte(rom, from + j))
  }

  /** ROM bank n as switchROMBank copies it. */
  function BankImage(rom: seq<byte>, n: nat): (w: seq<byte>)
  {
    ImageWindow(rom, n * BANK_SIZE, BANK_SIZE)
  }

  /** A bank that lies inside the image is exactly that slice of the image. */
  lemma BankImageInside(rom: seq<byte>, n: nat)
    requires (n + 1) * BANK_SIZE <= |rom|
    ensures BankImage(rom, n) == rom[n * BANK_SIZE..(n + 1) * BANK_SIZE]
  {
    var w := BankImage(rom, n);
    forall j | 0 <= j < BANK_SIZE
      ensures w[j] == rom[n * BANK_SIZE..(n + 1) * BANK_SIZE][j]
    {
      assert w[j] == RomByte(rom, n * BANK_SIZE + j);
    }
  }

  /** Two consecutive banks are the window of the two together: the boot mapping of 0x8000
   *  bytes is bank 0 followed by bank 1. */
  lemma BanksConcatenate(rom: seq<byte>)
    ensures ImageWindow(rom, 0, 2 * BANK_SIZE) == BankImage(rom, 0) + BankImage(rom, 1)
  {
    var w := ImageWindow(rom, 0, 2 * BANK_SIZE);
    var v := BankImage(rom, 0) + BankImage(rom, 1);
    forall j | 0 <= j < 2 * BANK_SIZE
      ensures w[j] == v[j]
    {
      if j < BANK_SIZE {
        assert v[j] == BankImage(rom, 0)[j];
      } else {
        assert v[j] == BankImage(rom, 1)[j - BANK_SIZE];
      }
    }
  }

  /** `before` with `img` written at offset `at`: what memcpy leaves behind. */
  function Load(before: seq<byte>, at: nat, img: seq<byte>): (after: seq<byte>)
    requires at + |img| <= |before|
    ensures |after| == |before|
  {
    before[..at] + img + before[at + |img|..]
  }

  /** A load is read back: inside the window the new byte, outside it the old one. */
  lemma {:induction false} LoadReads(before: seq<byte>, at: nat, img: seq<byte>, k: nat)
    requires at + |img| <= |before| && k < |before|
    ensures at <= k < at + |img| ==> Load(before, at, img)[k] == img[k - at]
    ensures !(at <= k < at + |img|) ==> Load(before, at, img)[k] == before[k]
  {
    var after := Load(before, at, img);
    if k < at {
      assert after[k] == before[..at][k];
    } else if k < at + |img| {
      assert after[k] == (before[..at] + img)[k];
    } else {
      assert after[k] == before[at + |img|..][k - at - |img|];
    }
  }

  /** A second load of the same window replaces the first. */
  lemma LoadTwice(before: seq<byte>, at: nat, img: seq<byte>, img': seq<byte>)
    requires at + |img| <= |before| && |img'| == |img|
    ensures Load(Load(before, at, img), at, img') == Load(before, at, img')
  {
    var once := Load(before, at, img);
    assert once[..at] == before[..at];
    assert once[at + |img|..] == before[at + |img|..];
  }

  /** The loaded window holds the image. */
  lemma LoadInside(before: seq<byte>, at: nat, img: seq<byte>)
    requires at + |img| <= |before|
    ensures Load(before, at, img)[at..at + |img|] == img
  {
    var after := Load(before, at, img);
    forall k | 0 <= k < |img|
      ensures after[at..at + |img|][k] == img[k]
    {
      LoadReads(before, at, img, at + k);
    }
  }

  /** A range clear of the loaded window keeps its old bytes. */
  lemma LoadOutside(before: seq<byte>, at: nat, img: seq<byte>, i: nat, j: nat)
    requires at + |img| <= |before| && i <= j <= |before|
    requires j <= at || at + |img| <= i
    ensures Load(before, at, img)[i..j] == before[i..j]
  {
    var after := Load(before, at, img);
    forall k | 0 <= k < j - i
      ensures after[i..j][k] == before[i..j][k]
    {
      LoadReads(before, at, img, i + k);
    }
  }

  /** memcpy(&mem[at], img, |img|) into the flat memory. */
  method Copy(mem: array<byte>, at: nat, img: seq<byte>)
    requires at + |img| <= mem.Length
    modifies mem
    ensures mem[..] == Load(old(mem[..]), at, img)
  {
    ghost var before := mem[..];
    var j := 0;
    while j < |img|
      invariant 0 <= j <= |img|
      invariant forall k :: 0 <= k < j ==> mem[at + k] == img[k]
      invariant forall k :: 0 <= k < mem.Length && !(at <= k < at + j) ==> mem[k] == before[k]
    {
      mem[at + j] := img[j];
      j := j + 1;
    }
    forall k | 0 <= k < mem.Length
      ensures mem[k] == Load(before, at, img)[k]
    {
      LoadReads(before, at, img, k);
    }
  }

  /** switchROMBank: MEM[0x4000..0x7FFF] becomes bank n, the rest of MEM is untouched. */
  method SwitchROMBank(mem: array<byte>, rom: seq<byte>, n: nat)
    requires mem.Length == MEM_SIZE
    modifies mem
    ensures mem[..] == Load(old(mem[..]), BANK_SIZE, BankImage(rom, n))
  {
    Copy(mem, BANK_SIZE, BankImage(rom, n));
  }

  /** switchRestrictedROMBank: whatever bank is asked for, MEM[0x0000..0x3FFF] becomes bank 0. */
  method SwitchRestrictedROMBank(mem: array<byte>, rom: seq<byte>, n: nat)
    requires mem.Length == MEM_SIZE
    modifies mem
    ensures mem[..] == Load(old(mem[..]), 0, BankImage(rom, 0))
  {
    Copy(mem, 0, BankImage(rom, 0));
  }
}
