// The SM83 arithmetic, rotate, shift and bit helpers of gb/cpu.c, as functions from the
// operand(s) and the old F register to the new value and the new F register.
// Each definition follows the C helper statement by statement (the same flag tests in
// the same order); the contracts and lemmas state what those tests amount to.

module GbAlu {
  import opened Bits

  /** FLAG_C, FLAG_H, FLAG_N, FLAG_Z: the flag with enum value k lives in bit k + 4 of F. */
  datatype Flag = FlagC | FlagH | FlagN | FlagZ

  /** The F bit of a flag: FLAG_C (0) is bit 4, FLAG_H bit 5, FLAG_N bit 6, FLAG_Z bit 7. */
  function FlagMask(f: Flag): (m: byte)
    ensures m == 1 << (4 + FlagIndex(f))
  {
    match f
    case FlagC => 0x10
    case FlagH => 0x20
    case FlagN => 0x40
    case FlagZ => 0x80
  }

  /** The enum value of a FLAG. */
  function FlagIndex(f: Flag): nat
  {
    match f
    case FlagC => 0
    case FlagH => 1
    case FlagN => 2
    case FlagZ => 3
  }

  /** get_flag: `(F >> (flag + 4)) & 1`. */
  function GetFlag(F: byte, f: Flag): bool
  {
    F & FlagMask(f) != 0
  }

  /** set_flag: sets or clears bit flag + 4 of F and no other bit. */
  function SetFlag(F: byte, f: Flag, b: bool): (r: byte)
    ensures GetFlag(r, f) == b
    ensures r & !FlagMask(f) == F & !FlagMask(f)
  {
    if b then F | FlagMask(f) else F & !FlagMask(f)
  }

  /** The combined effect of the four set_flag calls that most helpers end with:
   *  Z, N, H and C are assigned and the lower nibble of F is kept. */
  function SetFlags(F: byte, z: bool, n: bool, h: bool, c: bool): (r: byte)
    ensures GetFlag(r, FlagZ) == z && GetFlag(r, FlagN) == n
    ensures GetFlag(r, FlagH) == h && GetFlag(r, FlagC) == c
    ensures r & 0x0F == F & 0x0F
  {
    (F & 0x0F) | (if z then 0x80 else 0) | (if n then 0x40 else 0)
      | (if h then 0x20 else 0) | (if c then 0x10 else 0)
  }

  /** A value written back to a register or memory, together with the new F. */
  datatype Out = Out(value: byte, f: byte)

  /** A 16-bit result together with the new F. */
  datatype Out16 = Out16(value: word, f: byte)

  /** The four flags of an F byte, in the order Z, N, H, C. */
  predicate FlagsAre(F: byte, z: bool, n: bool, h: bool, c: bool)
  {
    GetFlag(F, FlagZ) == z && GetFlag(F, FlagN) == n && GetFlag(F, FlagH) == h && GetFlag(F, FlagC) == c
  }

  /** The lower nibble of F, which no flag update touches. */
  predicate LowNibbleKept(F: byte, F': byte)
  {
    F' & 0x0F == F & 0x0F
  }

  /** An F byte is determined by its four flags and its lower nibble. */
  lemma FlagsDetermine(F: byte, x: byte, y: byte)
    requires LowNibbleKept(F, x) && LowNibbleKept(F, y)
    requires FlagsAre(x, GetFlag(y, FlagZ), GetFlag(y, FlagN), GetFlag(y, FlagH), GetFlag(y, FlagC))
    ensures x == y
  {
  }

  // ---------------------------------------------------------------- increment / decrement

  /** incrementR8: Z from the result, H from the low nibble, N = 0, C untouched. */
  function Inc8(v: byte, F: byte): (r: Out)
    ensures r.value as bv16 == (v as bv16 + 1) & 0xFF
    ensures FlagsAre(r.f, r.value == 0, false, v & 0xF == 0xF, GetFlag(F, FlagC))
    ensures LowNibbleKept(F, r.f)
  {
    var res := v + 1;
    Out(res, SetFlags(F, res == 0, false, (v & 0xF) + (1 & 0xF) > 0xF, GetFlag(F, FlagC)))
  }

  /** decrementR8: Z from the result, N = 1, H when the low nibble borrows, C untouched. */
  function Dec8(v: byte, F: byte): (r: Out)
    ensures r.value + 1 == v
    ensures FlagsAre(r.f, r.value == 0, true, v & 0xF == 0, GetFlag(F, FlagC))
    ensures LowNibbleKept(F, r.f)
  {
    var res := v - 1;
    Out(res, SetFlags(F, res == 0, true, ((v & 0xF) - (1 & 0xF)) & 0x10 != 0, GetFlag(F, FlagC)))
  }

  /** INC then DEC gives the register back and leaves C alone. */
  lemma IncDecRoundTrip(v: byte, F: byte)
    ensures Dec8(Inc8(v, F).value, Inc8(v, F).f).value == v
    ensures GetFlag(Dec8(Inc8(v, F).value, Inc8(v, F).f).f, FlagC) == GetFlag(F, FlagC)
  {
  }

  // ---------------------------------------------------------------- rotates and shifts

  /** Z after a rotate: tested on the result, or forced to 0 for RLCA/RRCA/RLA/RRA. */
  function RotateZ(res: byte, setZFlag: bool): bool
  {
    if setZFlag then res == 0 else false
  }

  /** rotateLeftR8 (RLC): an 8-bit rotation to the left; the bit leaving bit 7 is also C. */
  function Rlc(v: byte, F: byte, setZFlag: bool): (r: Out)
    ensures r.value == v.RotateLeft(1)
    ensures FlagsAre(r.f, setZFlag && v == 0, false, false, v >= 0x80)
  {
    var bit7 := v >> 7;
    var res := (v << 1) | bit7;
    Out(res, SetFlags(F, RotateZ(res, setZFlag), false, false, bit7 != 0))
  }

  /** rotateRightR8 (RRC): an 8-bit rotation to the right; the bit leaving bit 0 is also C. */
  function Rrc(v: byte, F: byte, setZFlag: bool): (r: Out)
    ensures r.value == v.RotateRight(1)
    ensures FlagsAre(r.f, setZFlag && v == 0, false, false, v & 1 == 1)
  {
    var bit0 := v & 1;
    var res := (v >> 1) | (bit0 << 7);
    Out(res, SetFlags(F, RotateZ(res, setZFlag), false, false, bit0 != 0))
  }

  /** The 9-bit quantity "carry flag above the 8-bit value" that RL and RR rotate. */
  function CarryAndValue(F: byte, v: byte): bv9
  {
    (if GetFlag(F, FlagC) then 0x100 else 0) | v as bv9
  }

  /** rotateLeftCarryR8 (RL): a 9-bit rotation to the left of carry and value together. */
  function Rl(v: byte, F: byte, setZFlag: bool): (r: Out)
    ensures CarryAndValue(r.f, r.value) == CarryAndValue(F, v).RotateLeft(1)
    ensures !GetFlag(r.f, FlagH) && !GetFlag(r.f, FlagN)
    ensures GetFlag(r.f, FlagZ) == (setZFlag && r.value == 0)
  {
    var carry := BoolByte(GetFlag(F, FlagC));
    var bit7 := v >> 7;
    var res := (v << 1) | carry;
    Out(res, SetFlags(F, RotateZ(res, setZFlag), false, false, bit7 != 0))
  }

  /** rotateRightCarryR8 (RR): a 9-bit rotation to the right of carry and value together. */
  function Rr(v: byte, F: byte, setZFlag: bool): (r: Out)
    ensures CarryAndValue(r.f, r.value) == CarryAndValue(F, v).RotateRight(1)
    ensures !GetFlag(r.f, FlagH) && !GetFlag(r.f, FlagN)
    ensures GetFlag(r.f, FlagZ) == (setZFlag && r.value == 0)
  {
    var carry := BoolByte(GetFlag(F, FlagC));
    var bit0 := v & 1;
    var res := (v >> 1) | (carry << 7);
    Out(res, SetFlags(F, RotateZ(res, setZFlag), false, false, bit0 != 0))
  }

  /** RLC and RRC undo each other. */
  lemma RlcRrcRoundTrip(v: byte, F: byte, z: bool)
    ensures Rrc(Rlc(v, F, z).value, F, z).value == v
    ensures Rlc(Rrc(v, F, z).value, F, z).value == v
  {
  }

  /** RL then RR gives back both the value and the carry flag. */
  lemma RlRrRoundTrip(v: byte, F: byte, z: bool)
    ensures Rr(Rl(v, F, z).value, Rl(v, F, z).f, z).value == v
    ensures GetFlag(Rr(Rl(v, F, z).value, Rl(v, F, z).f, z).f, FlagC) == GetFlag(F, FlagC)
  {
  }

  /** shiftLeftArithmeticR8 (SLA): doubles the value mod 256; bit 7 goes to C. */
  function Sla(v: byte, F: byte): (r: Out)
    ensures r.value as bv16 == (v as bv16 * 2) & 0xFF
    ensures FlagsAre(r.f, r.value == 0, false, false, v >= 0x80)
  {
    var bit7 := v >> 7;
    var res := v << 1;
    Out(res, SetFlags(F, res == 0, false, false, bit7 != 0))
  }

  /** shiftRightLogicalR8 (SRL): unsigned halving; bit 0 goes to C. */
  function Srl(v: byte, F: byte): (r: Out)
    ensures r.value == v / 2
    ensures FlagsAre(r.f, v < 2, false, false, v % 2 == 1)
  {
    var bit0 := v & 1;
    var res := v >> 1;
    Out(res, SetFlags(F, res == 0, false, false, bit0 != 0))
  }

  /** shiftRightArithmeticR8 (SRA): signed halving rounded down (bit 7 is kept);
   *  bit 0 goes to C. */
  function Sra(v: byte, F: byte): (r: Out)
    ensures Signed8(r.value) == Signed8(v) / 2
    ensures FlagsAre(r.f, v < 2, false, false, v % 2 == 1)
  {
    var bit7 := v >> 7;
    var bit0 := v & 1;
    var res := (v >> 1) | (bit7 << 7);
    Out(res, SetFlags(F, res == 0, false, false, bit0 != 0))
  }

  /** swapR8: exchanges the two nibbles; Z from the value, N = H = C = 0. */
  function Swap(v: byte, F: byte): (r: Out)
    ensures r.value == v.RotateLeft(4)
    ensures FlagsAre(r.f, v == 0, false, false, false)
  {
    var high := v >> 4;
    var low := v & 0xF;
    var res := (low << 4) | high;
    Out(res, SetFlags(F, res == 0, false, false, false))
  }

  lemma SwapInvolution(v: byte, F: byte, F': byte)
    ensures Swap(Swap(v, F).value, F').value == v
  {
  }

  // ---------------------------------------------------------------- BIT / SET / RES

  /** testBitR8: Z is set iff the tested bit is 0; N = 0, H = 1, C untouched. */
  function TestBit(v: byte, bit: nat, F: byte): (f: byte)
    requires bit < 8
    ensures FlagsAre(f, v & (1 << bit) == 0, false, true, GetFlag(F, FlagC))
  {
    var bitValue := (v >> bit) & 1;
    ShiftTestIsMaskTest(v, bit);
    SetFlags(F, bitValue == 0, false, true, GetFlag(F, FlagC))
  }

  /** Shifting a bit down to position 0 and masking it tests the same bit as masking in place. */
  lemma ShiftTestIsMaskTest(v: byte, bit: nat)
    requires bit < 8
    ensures ((v >> bit) & 1 == 0) == (v & (1 << bit) == 0)
  {
    if bit == 0 {} else if bit == 1 {} else if bit == 2 {} else if bit == 3 {}
    else if bit == 4 {} else if bit == 5 {} else if bit == 6 {} else {}
  }

  /** setBitR8: turns the bit on and keeps the others; the flags are not touched. */
  function SetBit(v: byte, bit: nat): (r: byte)
    requires bit < 8
    ensures r & (1 << bit) != 0
    ensures r & !(1 << bit) == v & !(1 << bit)
  {
    v | (1 << bit)
  }

  /** resetBitR8: turns the bit off and keeps the others; the flags are not touched. */
  function ResBit(v: byte, bit: nat): (r: byte)
    requires bit < 8
    ensures r & (1 << bit) == 0
    ensures r & !(1 << bit) == v & !(1 << bit)
  {
    v & !(1 << bit)
  }

  /** BIT after SET reports a one (Z clear); BIT after RES reports a zero (Z set). */
  lemma TestAfterSetOrRes(v: byte, bit: nat, F: byte)
    requires bit < 8
    ensures !GetFlag(TestBit(SetBit(v, bit), bit, F), FlagZ)
    ensures GetFlag(TestBit(ResBit(v, bit), bit, F), FlagZ)
  {
  }

  // ---------------------------------------------------------------- 8-bit arithmetic

  /** addR8: result = a + b mod 256; Z, N = 0, H from the nibbles, C from the 9-bit sum. */
  function Add8(a: byte, b: byte, F: byte): (r: Out)
    ensures r.value as bv16 == (a as bv16 + b as bv16) & 0xFF
    ensures FlagsAre(r.f, r.value == 0, false, (a as bv16 & 0xF) + (b as bv16 & 0xF) >= 0x10,
                     a as bv16 + b as bv16 >= 0x100)
    ensures LowNibbleKept(F, r.f)
  {
    var res := a + b;
    Out(res, SetFlags(F, res == 0, false, (a as bv32 & 0xf) + (b as bv32 & 0xf) > 0xf, a as bv16 + b as bv16 > 0xFF))
  }

  /** adcR8 with test_adc_hcflags: the carry is added in a second step and H/C are set
   *  when either step carries; this is the same as one 9-bit addition of a + b + carry. */
  function Adc8(a: byte, b: byte, F: byte): (r: Out)
    ensures !GetFlag(F, FlagC) ==> r == Add8(a, b, F)
    ensures GetFlag(r.f, FlagZ) == (r.value == 0) && !GetFlag(r.f, FlagN)
  {
    var carry := BoolByte(GetFlag(F, FlagC));
    var result := a + b;
    var finalResult := result + carry;
    var half := (a & 0xF) as bv16 + (b & 0xF) as bv16 > 0xF || (result & 0xF) as bv16 + (carry & 0xF) as bv16 > 0xF;
    var full := a as bv16 + b as bv16 > 0xFF || result as bv16 + carry as bv16 > 0xFF;
    Out(finalResult, SetFlags(F, finalResult == 0, false, half, full))
  }

  /** ADC as a single 9-bit addition of a, b and the carry. */
  lemma Adc8Spec(a: byte, b: byte, F: byte)
    ensures var c := BoolByte(GetFlag(F, FlagC)) as bv16;
            var r := Adc8(a, b, F);
            r.value as bv16 == (a as bv16 + b as bv16 + c) & 0xFF &&
            GetFlag(r.f, FlagH) == ((a as bv16 & 0xF) + (b as bv16 & 0xF) + c >= 0x10) &&
            GetFlag(r.f, FlagC) == (a as bv16 + b as bv16 + c >= 0x100)
  {
    if GetFlag(F, FlagC) {
      Adc8WithCarry(a, b, F);
    }
  }

  /** ADC with a carry in: the two-step sum carries exactly when a + b + 1 does. */
  lemma Adc8WithCarry(a: byte, b: byte, F: byte)
    requires GetFlag(F, FlagC)
    ensures var r := Adc8(a, b, F);
            r.value as bv16 == (a as bv16 + b as bv16 + 1) & 0xFF &&
            GetFlag(r.f, FlagH) == ((a as bv16 & 0xF) + (b as bv16 & 0xF) + 1 >= 0x10) &&
            GetFlag(r.f, FlagC) == (a as bv16 + b as bv16 + 1 >= 0x100)
  {
    var r := Adc8(a, b, F);
    assert r.value == a + b + 1;
  }

  /** TEST_H_FLAG_SUB: bit 4 of the (int) difference of the low nibbles. */
  function HalfBorrow(x: byte, y: byte): bool
  {
    ((x & 0xF) - (y & 0xF)) & 0x10 != 0
  }

  /** subR8: result = a - b mod 256; N = 1; H iff the low nibble borrows; C iff a < b. */
  function Sub8(a: byte, b: byte, F: byte): (r: Out)
    ensures r.value + b == a
    ensures FlagsAre(r.f, a == b, true, a & 0xF < b & 0xF, a < b)
    ensures LowNibbleKept(F, r.f)
  {
    var res := a - b;
    Out(res, SetFlags(F, res == 0, true, HalfBorrow(a, b), a < b))
  }

  /** sbcR8 with test_sbc_hcflags: the borrow is subtracted in a second step and H/C are
   *  set when either step wraps; without a carry this is SUB. */
  function Sbc8(a: byte, b: byte, F: byte): (r: Out)
    ensures GetFlag(r.f, FlagZ) == (r.value == 0) && GetFlag(r.f, FlagN)
    ensures LowNibbleKept(F, r.f)
  {
    var carry := BoolByte(GetFlag(F, FlagC));
    var result := a - b;
    var finalResult := result - carry;
    var oldLow := a & 0xF;
    var resultLow := result & 0xF;
    var half := oldLow - (b & 0xF) > oldLow || resultLow - carry > resultLow;
    var full := a - b > a || result - carry > result;
    Out(finalResult, SetFlags(F, finalResult == 0, true, half, full))
  }

  /** A byte subtraction wraps exactly when the subtrahend is larger. */
  lemma SubWraps(x: byte, y: byte)
    ensures (x - y > x) == (y > x)
  {
  }

  /** SBC with a carry in subtracts b and one from a: H is the borrow out of the low nibble
   *  of a - b - 1 and C the borrow out of the byte. */
  lemma Sbc8WithCarry(a: byte, b: byte, F: byte)
    requires GetFlag(F, FlagC)
    ensures var r := Sbc8(a, b, F);
            r.value == a - b - 1 &&
            GetFlag(r.f, FlagH) == (a & 0xF <= b & 0xF) &&
            GetFlag(r.f, FlagC) == (a <= b)
  {
    SubWraps(a, b);
    SubWraps(a & 0xF, b & 0xF);
    SubWraps(a - b, 1);
    SubWraps((a - b) & 0xF, 1);
    LowNibbleOfDifference(a, b);
  }

  /** The low nibble of a difference is zero exactly when the low nibbles are equal. */
  lemma LowNibbleOfDifference(a: byte, b: byte)
    ensures ((a - b) & 0xF == 0) == (a & 0xF == b & 0xF)
  {
  }

  /** SBC without a carry in is a plain subtraction. */
  lemma Sbc8WithoutCarry(a: byte, b: byte, F: byte)
    requires !GetFlag(F, FlagC)
    ensures var r := Sbc8(a, b, F);
            r.value == a - b &&
            GetFlag(r.f, FlagH) == (a & 0xF < b & 0xF) &&
            GetFlag(r.f, FlagC) == (a < b)
  {
    SubWraps(a, b);
    SubWraps(a & 0xF, b & 0xF);
  }

  /** Without a carry in, SBC computes exactly SUB. */
  lemma Sbc8NoCarry(a: byte, b: byte, F: byte)
    requires !GetFlag(F, FlagC)
    ensures Sbc8(a, b, F) == Sub8(a, b, F)
  {
    Sbc8WithoutCarry(a, b, F);
    FlagsDetermine(F, Sbc8(a, b, F).f, Sub8(a, b, F).f);
  }

  /** andR8: Z, N = 0, H = 1, C = 0. */
  function And8(a: byte, b: byte, F: byte): (r: Out)
    ensures r.value & a == r.value && r.value & b == r.value && r.value | !a | !b == 0xFF
    ensures FlagsAre(r.f, r.value == 0, false, true, false)
  {
    var res := a & b;
    Out(res, SetFlags(F, res == 0, false, true, false))
  }

  /** xorR8: Z, N = H = C = 0. */
  function Xor8(a: byte, b: byte, F: byte): (r: Out)
    ensures r.value ^ b == a && r.value ^ a == b
    ensures FlagsAre(r.f, a == b, false, false, false)
  {
    var res := a ^ b;
    Out(res, SetFlags(F, res == 0, false, false, false))
  }

  /** orR8: Z, N = H = C = 0. */
  function Or8(a: byte, b: byte, F: byte): (r: Out)
    ensures r.value | a == r.value && r.value | b == r.value && r.value & !a & !b == 0
    ensures FlagsAre(r.f, a == 0 && b == 0, false, false, false)
  {
    var res := a | b;
    Out(res, SetFlags(F, res == 0, false, false, false))
  }

  /** compareR8: the flags of a - b with the result thrown away. */
  function Cp8(a: byte, b: byte, F: byte): (f: byte)
    ensures f == Sub8(a, b, F).f
    ensures FlagsAre(f, a == b, true, a & 0xF < b & 0xF, a < b)
  {
    var res := a - b;
    SetFlags(F, res == 0, true, HalfBorrow(a, b), a < b)
  }

  // ---------------------------------------------------------------- 16-bit arithmetic

  /** addR16 (ADD HL, rr): N = 0, H from bit 11, C from bit 15, Z untouched. */
  function Add16(x: word, y: word, F: byte): (r: Out16)
    ensures r.value as bv32 == (x as bv32 + y as bv32) & 0xFFFF
    ensures FlagsAre(r.f, GetFlag(F, FlagZ), false, (x & 0xFFF) as bv32 + (y & 0xFFF) as bv32 >= 0x1000,
                     x as bv32 + y as bv32 >= 0x1_0000)
  {
    var res := x + y;
    Out16(res, SetFlags(F, GetFlag(F, FlagZ), false, (x as bv32 & 0xfff) + (y as bv32 & 0xfff) > 0xfff, x as bv32 + y as bv32 > 0xFFFF))
  }

  /** addR16I8 (ADD SP, e8) and load_rr_rri8 (LD HL, SP + e8): the sum uses the
   *  sign-extended byte, but Z = N = 0 and H and C come from the unsigned 8-bit addition
   *  of the low byte of the register and the raw byte. */
  function AddSpE8(sp: word, e: byte, F: byte): (r: Out16)
    ensures Lo(r.value) == Lo(sp) + e
    ensures FlagsAre(r.f, false, false, (Lo(sp) & 0xF) + (e & 0xF) >= 0x10,
                     Lo(sp) as bv16 + e as bv16 >= 0x100)
  {
    var res := AddSigned(sp, e);
    var low := Lo(sp);
    Out16(res, SetFlags(F, false, false, (low as bv32 & 0xf) + (e as bv32 & 0xf) > 0xf, low as bv16 + e as bv16 > 0xFF))
  }

  // ---------------------------------------------------------------- A-register specials

  /** cpl: A = ~A, N = H = 1. */
  function Cpl(a: byte, F: byte): (r: Out)
    ensures r.value ^ a == 0xFF
    ensures FlagsAre(r.f, GetFlag(F, FlagZ), true, true, GetFlag(F, FlagC))
  {
    Out(!a, SetFlags(F, GetFlag(F, FlagZ), true, true, GetFlag(F, FlagC)))
  }

  /** CCF: complements C, clears N and H. */
  function Ccf(F: byte): (f: byte)
    ensures FlagsAre(f, GetFlag(F, FlagZ), false, false, !GetFlag(F, FlagC))
  {
    var c := BoolByte(GetFlag(F, FlagC)) ^ 1;
    SetFlags(F, GetFlag(F, FlagZ), false, false, c != 0)
  }

  /** SCF (opcode 0x37): C = 1, N = H = 0. */
  function Scf(F: byte): (f: byte)
    ensures FlagsAre(f, GetFlag(F, FlagZ), false, false, true)
  {
    SetFlags(F, GetFlag(F, FlagZ), false, false, true)
  }

  lemma CcfTwice(F: byte)
    ensures GetFlag(Ccf(Ccf(F)), FlagC) == GetFlag(F, FlagC)
  {
  }

  /** decimalAdjust (DAA). After a subtraction it undoes the +6 / +0x60 corrections
   *  recorded in H and C; after an addition it adds them when H/C or the digit ranges say so. */
  function Daa(a: byte, F: byte): (r: Out)
    ensures !GetFlag(r.f, FlagH) && GetFlag(r.f, FlagZ) == (r.value == 0)
    ensures GetFlag(r.f, FlagN) == GetFlag(F, FlagN)
    ensures GetFlag(F, FlagC) ==> GetFlag(r.f, FlagC)
  {
    if GetFlag(F, FlagN) then
      var v1 := if GetFlag(F, FlagH) then a - 0x06 else a;
      var v2 := if GetFlag(F, FlagC) then v1 - 0x60 else v1;
      Out(v2, SetFlags(F, v2 == 0, true, false, GetFlag(F, FlagC)))
    else
      var lowFix := GetFlag(F, FlagH) || (a & 0xF) > 0x9;
      var v1 := if lowFix then a + 0x6 else a;
      var c1 := GetFlag(F, FlagC) || (lowFix && a > v1);
      var highFix := c1 || v1 > 0x9F;
      var v2 := if highFix then v1 + 0x60 else v1;
      Out(v2, SetFlags(F, v2 == 0, false, false, c1 || highFix))
  }

  /** A byte holding two decimal digits. */
  predicate IsBcd(x: byte)
  {
    x & 0xF <= 9 && x >> 4 <= 9
  }

  /** ADD of two BCD bytes followed by DAA performs decimal addition digit by digit: the low
   *  digit is the sum of the low digits modulo 10, the high digit the sum of the high digits
   *  and the decimal carry modulo 10, and C is the decimal carry out of the high digit. */
  lemma DaaAfterAdd(a: byte, b: byte, F: byte)
    requires IsBcd(a) && IsBcd(b)
    ensures var s := Add8(a, b, F);
            var d := Daa(s.value, s.f);
            var lo := (a & 0xF) + (b & 0xF);
            var hi := (a >> 4) + (b >> 4) + (if lo >= 10 then 1 else 0);
            d.value & 0xF == (if lo >= 10 then lo - 10 else lo) &&
            d.value >> 4 == (if hi >= 10 then hi - 10 else hi) &&
            GetFlag(d.f, FlagC) == (hi >= 10)
  {
    if (a & 0xF) + (b & 0xF) >= 10 { DaaAfterAddLowCarry(a, b, F); } else { DaaAfterAddNoLowCarry(a, b, F); }
  }

  lemma DaaAfterAddLowCarry(a: byte, b: byte, F: byte)
    requires IsBcd(a) && IsBcd(b) && (a & 0xF) + (b & 0xF) >= 10
    ensures var s := Add8(a, b, F);
            var d := Daa(s.value, s.f);
            var lo := (a & 0xF) + (b & 0xF);
            var hi := (a >> 4) + (b >> 4) + (if lo >= 10 then 1 else 0);
            d.value & 0xF == (if lo >= 10 then lo - 10 else lo) &&
            d.value >> 4 == (if hi >= 10 then hi - 10 else hi) &&
            GetFlag(d.f, FlagC) == (hi >= 10)
  {
  }

  lemma DaaAfterAddNoLowCarry(a: byte, b: byte, F: byte)
    requires IsBcd(a) && IsBcd(b) && (a & 0xF) + (b & 0xF) < 10
    ensures var s := Add8(a, b, F);
            var d := Daa(s.value, s.f);
            var lo := (a & 0xF) + (b & 0xF);
            var hi := (a >> 4) + (b >> 4) + (if lo >= 10 then 1 else 0);
            d.value & 0xF == (if lo >= 10 then lo - 10 else lo) &&
            d.value >> 4 == (if hi >= 10 then hi - 10 else hi) &&
            GetFlag(d.f, FlagC) == (hi >= 10)
  {
  }

  /** SUB of two BCD bytes followed by DAA performs decimal subtraction digit by digit, with
   *  a borrow from the high digit when the low digit of a is smaller, and C is the decimal
   *  borrow out of the high digit. */
  lemma DaaAfterSub(a: byte, b: byte, F: byte)
    requires IsBcd(a) && IsBcd(b)
    ensures var s := Sub8(a, b, F);
            var d := Daa(s.value, s.f);
            var borrow: byte := if a & 0xF < b & 0xF then 1 else 0;
            var out := a >> 4 < (b >> 4) + borrow;
            d.value & 0xF == (if borrow == 1 then (a & 0xF) + 10 - (b & 0xF) else (a & 0xF) - (b & 0xF)) &&
            d.value >> 4 == (if out then (a >> 4) + 10 else a >> 4) - (b >> 4) - borrow &&
            GetFlag(d.f, FlagC) == out
  {
    if a & 0xF < b & 0xF { DaaAfterSubLowBorrow(a, b, F); } else { DaaAfterSubNoLowBorrow(a, b, F); }
  }

  lemma DaaAfterSubLowBorrow(a: byte, b: byte, F: byte)
    requires IsBcd(a) && IsBcd(b) && a & 0xF < b & 0xF
    ensures var s := Sub8(a, b, F);
            var d := Daa(s.value, s.f);
            var borrow: byte := if a & 0xF < b & 0xF then 1 else 0;
            var out := a >> 4 < (b >> 4) + borrow;
            d.value & 0xF == (if borrow == 1 then (a & 0xF) + 10 - (b & 0xF) else (a & 0xF) - (b & 0xF)) &&
            d.value >> 4 == (if out then (a >> 4) + 10 else a >> 4) - (b >> 4) - borrow &&
            GetFlag(d.f, FlagC) == out
  {
  }

  lemma DaaAfterSubNoLowBorrow(a: byte, b: byte, F: byte)
    requires IsBcd(a) && IsBcd(b) && a & 0xF >= b & 0xF
    ensures var s := Sub8(a, b, F);
            var d := Daa(s.value, s.f);
            var borrow: byte := if a & 0xF < b & 0xF then 1 else 0;
            var out := a >> 4 < (b >> 4) + borrow;
            d.value & 0xF == (if borrow == 1 then (a & 0xF) + 10 - (b & 0xF) else (a & 0xF) - (b & 0xF)) &&
            d.value >> 4 == (if out then (a >> 4) + 10 else a >> 4) - (b >> 4) - borrow &&
            GetFlag(d.f, FlagC) == out
  {
  }
}
