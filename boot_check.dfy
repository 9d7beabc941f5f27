// The cartridge checks of bootROM, shared by gb/gb.c and the legacy src/vm.c: the first 0x18
// bytes of the header logo against the emulator's copy, and the header checksum fold over
// 0x134..0x14C.

module BootCheck {
  import opened Bits
  import opened GbCart

  /** The logo table bootROM holds (0x30 bytes; only the first 0x18 are compared). */
  const LOGO: seq<byte> := [
    0xCE, 0xED, 0x66, 0x66, 0xCC, 0x0D, 0x00, 0x0B, 0x03, 0x73, 0x00, 0x83,
    0x00, 0x0C, 0x00, 0x0D, 0x00, 0x08, 0x11, 0x1F, 0x88, 0x89, 0x00, 0x0E,
    0xDC, 0xCC, 0x6E, 0xE6, 0xDD, 0xDD, 0xD9, 0x99, 0xBB, 0xBB, 0x67, 0x64,
    0x6E, 0x0E, 0xEC, 0xCC, 0xDD, 0xDC, 0x99, 0x9F, 0xBB, 0xB9, 0x33, 0x3E]

  /** The compared length of the memcmp. */
  const LOGO_CHECKED: nat := 0x18

  /** `memcmp(logoChecksum, logo, 0x18) == 0`. A logo shorter than that cannot match. */
  predicate LogoVerified(logo: seq<byte>)
  {
    |logo| >= LOGO_CHECKED && forall i :: 0 <= i < LOGO_CHECKED ==> logo[i] == LOGO[i]
  }

  /** Only the first 0x18 bytes take part: anything after them may differ. */
  lemma LogoPrefixOnly(logo: seq<byte>, tail: seq<byte>)
    requires |logo| == LOGO_CHECKED
    ensures LogoVerified(logo + tail) <==> logo == LOGO[..LOGO_CHECKED]
  {
    if LogoVerified(logo + tail) {
      assert forall i :: 0 <= i < LOGO_CHECKED ==> logo[i] == (logo + tail)[i];
    }
  }

  /** The first header byte taken into the checksum, and the number of bytes folded. */
  const CHECKSUM_FROM: nat := 0x134
  const CHECKSUM_BYTES: nat := 0x14C - 0x134 + 1

  /** The checksum after folding `c := c - allocated[i] - 1` over the first n header bytes. */
  function Fold(rom: seq<byte>, n: nat): int
  {
    if n == 0 then 0 else Fold(rom, n - 1) - ByteNat(RomByte(rom, CHECKSUM_FROM + n - 1)) - 1
  }

  /** The sum of the first n header bytes taken into the checksum. */
  function HeaderSum(rom: seq<byte>, n: nat): nat
  {
    if n == 0 then 0 else HeaderSum(rom, n - 1) + ByteNat(RomByte(rom, CHECKSUM_FROM + n - 1))
  }

  /** The fold is the negated byte sum less one per byte. */
  lemma {:induction false} FoldIsNegatedSum(rom: seq<byte>, n: nat)
    ensures Fold(rom, n) == -(HeaderSum(rom, n) + n)
  {
    if n > 0 {
      FoldIsNegatedSum(rom, n - 1);
    }
  }

  /** The loop of bootROM computing the header checksum. */
  method HeaderChecksum(rom: seq<byte>) returns (checksum: int)
    ensures checksum == Fold(rom, CHECKSUM_BYTES)
    ensures checksum == -(HeaderSum(rom, CHECKSUM_BYTES) + CHECKSUM_BYTES)
  {
    checksum := 0;
    var i := 0x134;
    while i <= 0x14C
      invariant 0x134 <= i <= 0x14D
      invariant checksum == Fold(rom, i - 0x134)
    {
      checksum := checksum - ByteNat(RomByte(rom, i)) - 1;
      i := i + 1;
    }
    FoldIsNegatedSum(rom, CHECKSUM_BYTES);
  }

  /** `(checksum & 0xFF) == headerChecksum`: on a two's-complement int the low eight bits are
   *  the value modulo 256 (Dafny's % is never negative). */
  predicate ChecksumMatches(rom: seq<byte>, headerChecksum: byte)
  {
    Fold(rom, CHECKSUM_BYTES) % 256 == ByteNat(headerChecksum)
  }

  /** The check in the usual arithmetic form: the stored byte plus the header bytes plus 0x19
   *  is a multiple of 256. */
  lemma ChecksumMatchesExactly(rom: seq<byte>, headerChecksum: byte)
    ensures ChecksumMatches(rom, headerChecksum) <==>
            (HeaderSum(rom, CHECKSUM_BYTES) + CHECKSUM_BYTES + ByteNat(headerChecksum)) % 256 == 0
  {
    FoldIsNegatedSum(rom, CHECKSUM_BYTES);
    var s := HeaderSum(rom, CHECKSUM_BYTES) + CHECKSUM_BYTES;
    var h := ByteNat(headerChecksum);
    if (-s) % 256 == h {
      assert (s + h) % 256 == 0;
    }
    if (s + h) % 256 == 0 {
      assert (-s) % 256 == h % 256;
    }
  }

  /** How bootROM ends: log_fatal on the logo first, then on the checksum. */
  datatype Verdict = Verified | LogoMismatch | ChecksumMismatch

  /** The verdict for a cartridge, as the checks run in order. */
  function Check(cart: Cart): Verdict
  {
    if !LogoVerified(cart.logo) then LogoMismatch
    else if !ChecksumMatches(cart.rom, cart.headerChecksum) then ChecksumMismatch
    else Verified
  }

  /** The cartridge checks of bootROM, the checksum computed by its loop. */
  method BootChecks(cart: Cart) returns (v: Verdict)
    ensures v == Verified <==> LogoVerified(cart.logo) && ChecksumMatches(cart.rom, cart.headerChecksum)
    ensures v == LogoMismatch <==> !LogoVerified(cart.logo)
    ensures v == Check(cart)
  {
    var logoVerified := LogoVerified(cart.logo);
    if !logoVerified {
      return LogoMismatch;
    }
    var checksum := HeaderChecksum(cart.rom);
    if checksum % 256 != ByteNat(cart.headerChecksum) {
      return ChecksumMismatch;
    }
    return Verified;
  }
}
