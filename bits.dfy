// Fixed-width integer helpers shared by the Game Boy and Game Boy Advance models.
// The emulator works on uint8_t / uint16_t / uint32_t values; these are modelled as
// bit-vectors so that C's wrap-around and bitwise operators carry over unchanged.

module Bits {

  /** uint8_t */
  type byte = bv8
  /** uint16_t */
  type word = bv16
  /** uint32_t */
  type dword = bv32

  /** A byte as a number. */
  function ByteNat(b: byte): (n: nat)
    ensures n < 0x100
  {
    b as nat
  }

  /** The order of bytes is the order of their numbers. */
  lemma ByteNatMonotone(a: byte, b: byte)
    ensures a <= b <==> ByteNat(a) <= ByteNat(b)
  {
  }

  /** A 16-bit value as a number. */
  function WordNat(w: word): (n: nat)
    ensures n < 0x10000
  {
    w as nat
  }

  /** A 32-bit value as a number. */
  function DwordNat(d: dword): (n: nat)
    ensures n < 0x1_0000_0000
  {
    d as nat
  }

  /** A word's number converts back to the word. */
  lemma WordNatRoundTrip(w: word)
    ensures WordNat(w) as word == w
  {
  }

  /** Distinct words are distinct numbers. */
  lemma WordNatInjective(a: word, b: word)
    requires a != b
    ensures WordNat(a) != WordNat(b)
  {
    WordNatRoundTrip(a);
    WordNatRoundTrip(b);
  }

  /** The high byte of a 16-bit value (`v >> 8`). */
  function Hi(w: word): byte
  {
    (w >> 8) as byte
  }

  /** The low byte of a 16-bit value (`v & 0xFF`). */
  function Lo(w: word): byte
  {
    (w & 0xFF) as byte
  }

  /** `(hi << 8) | lo` computed in 16 bits. */
  function Join(hi: byte, lo: byte): (w: word)
  {
    ((hi as word) << 8) | (lo as word)
  }

  /** Two down and two up again is where one started. */
  lemma DownUp2(x: word, y: word)
    requires y == x - 2
    ensures y + 2 == x
  {
  }

  lemma JoinHiLo(w: word)
    ensures Join(Hi(w), Lo(w)) == w
  {
  }

  lemma HiLoJoin(hi: byte, lo: byte)
    ensures Hi(Join(hi, lo)) == hi && Lo(Join(hi, lo)) == lo
  {
  }

  /** Incrementing a byte below 0xFF adds one to its number. */
  lemma ByteSucc(b: byte)
    requires b < 0xFF
    ensures ByteNat(b + 1) == ByteNat(b) + 1
  {
  }

  /** A 16-bit value is its high byte times 256 plus its low byte. */
  lemma WordBytes(w: word)
    ensures WordNat(w) == ByteNat(Hi(w)) * 256 + ByteNat(Lo(w))
  {
  }

  /** Incrementing a word whose low byte is below 0xFF increments the low byte alone. */
  lemma IncNoCarry(w: word)
    requires Lo(w) < 0xFF
    ensures Hi(w + 1) == Hi(w) && Lo(w + 1) == Lo(w) + 1
  {
  }

  /** Incrementing a word whose low byte is 0xFF carries into the high byte. */
  lemma IncCarry(w: word)
    requires w < 0xFFFF && Lo(w) == 0xFF
    ensures Hi(w) < 0xFF && Hi(w + 1) == Hi(w) + 1 && Lo(w + 1) == 0
  {
  }

  /** Incrementing a word below 0xFFFF adds one to its number. */
  lemma WordSucc(w: word)
    requires w < 0xFFFF
    ensures WordNat(w + 1) == WordNat(w) + 1
  {
    WordBytes(w);
    WordBytes(w + 1);
    if Lo(w) < 0xFF {
      IncNoCarry(w);
      ByteSucc(Lo(w));
    } else {
      IncCarry(w);
      ByteSucc(Hi(w));
    }
  }

  /** Bit i of a byte, as C's `(b >> i) & 1`. */
  function Bit(b: byte, i: nat): bool
    requires i < 8
  {
    (b >> i) & 1 == 1
  }

  /** A C truth value stored in a uint8_t (0 or 1). */
  function BoolByte(b: bool): (r: byte)
    ensures r == 0 || r == 1
    ensures (r == 1) == b
  {
    if b then 1 else 0
  }

  /** `(int8_t)b`: the two's-complement reading of a byte. */
  function Signed8(b: byte): (r: int)
    ensures -128 <= r < 128
    ensures r % 256 == b as int
  {
    if b < 0x80 then b as int else b as int - 256
  }

  /** C's `(uint16_t)(x + (int8_t)e)`: adding a sign-extended byte modulo 2^16. */
  function AddSigned(x: word, e: byte): word
  {
    if e < 0x80 then x + e as word else x + (0xFF00 | e as word)
  }
}
