// The CPSR helpers, checkCondition and the two operand-2 decoders of gba/arm7tdmi.c, each
// beside a reference taken from the ARM architecture: the condition table of section A3.2 and the
// data-processing operands of section A5.1 of the ARM Architecture Reference Manual.

module GbaShifter {
  import opened Bits
  import opened GbaState

  // ---------------------------------------------------------------------------------------
  // CPSR bits

  /** Bit positions of the condition flags (FLG_N, FLG_Z, FLG_C, FLG_V). */
  const FLG_N: dword := 31
  const FLG_Z: dword := 30
  const FLG_C: dword := 29
  const FLG_V: dword := 28

  /** CPSR_GetBit: bit `bit` of the CPSR. */
  function GetBit(cpsr: dword, bit: dword): bool
    requires bit < 32
  {
    (cpsr >> bit) & 1 == 1
  }

  /** The mask of one bit. */
  function Mask(bit: dword): (m: dword)
    requires bit < 32
    ensures GetBit(m, bit)
  {
    1 << bit
  }

  /** CPSR_SetBit: sets one bit and keeps every other. */
  function SetBit(cpsr: dword, bit: dword): (r: dword)
    requires bit < 32
    ensures GetBit(r, bit)
    ensures r & !Mask(bit) == cpsr & !Mask(bit)
  {
    cpsr | Mask(bit)
  }

  /** CPSR_UnsetBit: clears one bit and keeps every other. */
  function UnsetBit(cpsr: dword, bit: dword): (r: dword)
    requires bit < 32
    ensures !GetBit(r, bit)
    ensures r & !Mask(bit) == cpsr & !Mask(bit)
  {
    cpsr & !Mask(bit)
  }

  /** The value of each CPU_MODE, which is what CPSR_SetMode ORs into the low bits. The header
   *  that fixes the enum is not part of this model; these are the low four bits of the ARM mode
   *  field, which CPSR_GetMode's `CPSR & 0xF` requires to tell the modes apart. */
  function ModeBits(m: Mode): (b: dword)
    ensures b < 0x10
  {
    match m
    case User => 0x0
    case Fiq => 0x1
    case Irq => 0x2
    case Svc => 0x3
    case Abt => 0x7
    case Und => 0xB
    case System => 0xF
  }

  /** CPSR_SetMode: bits 4-0 become 0x10 | mode, all other bits are kept. */
  function SetMode(cpsr: dword, m: Mode): (r: dword)
    ensures r & 0x1F == 0x10 | ModeBits(m)
    ensures r & !0x1F == cpsr & !0x1F
  {
    (cpsr & !0x1F) | 0x10 | ModeBits(m)
  }

  /** CPSR_GetMode: the mode whose value is CPSR & 0xF, or None when no mode has that value. */
  function GetMode(cpsr: dword): Option<Mode>
  {
    var n := cpsr & 0xF;
    if n == 0x0 then Some(User) else if n == 0x1 then Some(Fiq) else if n == 0x2 then Some(Irq)
    else if n == 0x3 then Some(Svc) else if n == 0x7 then Some(Abt) else if n == 0xB then Some(Und)
    else if n == 0xF then Some(System) else None
  }

  datatype Option<T> = None | Some(value: T)

  /** GetMode reads back the mode SetMode wrote, whatever the CPSR held before. */
  lemma GetModeSetMode(cpsr: dword, m: Mode)
    ensures GetMode(SetMode(cpsr, m)) == Some(m)
  {
    assert SetMode(cpsr, m) & 0xF == ModeBits(m);
  }

  /** Setting a mode twice is setting it once, and the last mode set wins. */
  lemma SetModeTwice(cpsr: dword, a: Mode, b: Mode)
    ensures SetMode(SetMode(cpsr, a), b) == SetMode(cpsr, b)
  {
  }

  /** Writing back the mode the CPSR already holds changes nothing. */
  lemma SetModeSame(cpsr: dword, m: Mode)
    requires cpsr & 0x1F == 0x10 | ModeBits(m)
    ensures SetMode(cpsr, m) == cpsr
  {
  }

  // ---------------------------------------------------------------------------------------
  // Conditions

  /** checkCondition: whether an instruction with condition field `cond` executes. AL (1110)
   *  always does; 1111 prints a warning and does not. */
  function Condition(cpsr: dword, cond: dword): bool
    requires cond < 16
  {
    var n := GetBit(cpsr, FLG_N);
    var z := GetBit(cpsr, FLG_Z);
    var c := GetBit(cpsr, FLG_C);
    var v := GetBit(cpsr, FLG_V);
    if cond == 0xE then true
    else if cond == 0x0 then z
    else if cond == 0x1 then !z
    else if cond == 0x2 then c
    else if cond == 0x3 then !c
    else if cond == 0x4 then n
    else if cond == 0x5 then !n
    else if cond == 0x6 then v
    else if cond == 0x7 then !v
    else if cond == 0x8 then c && !z
    else if cond == 0x9 then !c || z
    else if cond == 0xA then n == v
    else if cond == 0xB then n != v
    else if cond == 0xC then !z && n == v
    else if cond == 0xD then z || n != v
    else false
  }

  /** The conditions come in complementary pairs: for each even code below AL, the next code
   *  holds exactly when it does not. */
  lemma ConditionPairs(cpsr: dword, cond: dword)
    requires cond < 14 && cond & 1 == 0
    ensures Condition(cpsr, cond + 1) == !Condition(cpsr, cond)
  {
  }

  /** AL always executes, 1111 never. */
  lemma ConditionAlwaysNever(cpsr: dword)
    ensures Condition(cpsr, 0xE) && !Condition(cpsr, 0xF)
  {
  }

  /** Only the four flags decide a condition: CPSRs that agree on bits 31-28 agree on every code. */
  lemma ConditionReadsFlagsOnly(a: dword, b: dword, cond: dword)
    requires cond < 16 && a & 0xF000_0000 == b & 0xF000_0000
    ensures Condition(a, cond) == Condition(b, cond)
  {
    assert GetBit(a, FLG_N) == GetBit(b, FLG_N) && GetBit(a, FLG_Z) == GetBit(b, FLG_Z);
    assert GetBit(a, FLG_C) == GetBit(b, FLG_C) && GetBit(a, FLG_V) == GetBit(b, FLG_V);
  }

  // ---------------------------------------------------------------------------------------
  // Register operand

  /** The shift selected by bits 6-5 of operand 2. */
  datatype ShiftKind = LSL | LSR | ASR | ROR

  function KindOf(op2: dword): ShiftKind
  {
    var t := (op2 >> 5) & 3;
    if t == 0 then LSL else if t == 1 then LSR else if t == 2 then ASR else ROR
  }

  /** A shifter result: the operand and the carry out. */
  datatype Operand = Operand(value: dword, carry: bool)

  /** What the C computes: an operand, or nothing where it shifts a 32-bit value by 32, which C
   *  leaves undefined. */
  datatype Shifted = Defined(operand: Operand) | UndefinedShift

  /** Bit i of a word. */
  function Bit32(x: dword, i: dword): bool
    requires i < 32
  {
    (x >> i) & 1 == 1
  }

  /** Whether operand 2 takes its shift amount from a register (bit 4). */
  predicate ByRegister(op2: dword)
  {
    (op2 >> 4) & 1 == 1
  }

  /** The shift amount, a uint8_t: the low byte of Rs (bits 11-8), or bits 11-7. */
  function ShiftAmount(reg: seq<dword>, op2: dword): (n: dword)
    requires |reg| == 16 && op2 < 0x1000
    ensures n < 0x100 && (!ByRegister(op2) ==> n < 32)
  {
    if ByRegister(op2) then reg[DwordNat(op2 >> 8)] & 0xFF else (op2 >> 7) & 0x1F
  }

  /** The shift of getDataProcessing_RxOP2 as written, on Rm's value, the carry flag, the shift
   *  type and the amount. The amount 0 returns Rm with the carry flag before the shift type is
   *  looked at, so the ASR amount-0 case and the RRX case of its switch are never reached. */
  function ShiftAsWritten(data: dword, c: bool, kind: ShiftKind, amount: dword): Shifted
    requires amount < 0x100
  {
    if amount == 0 then Defined(Operand(data, c))
    else
      match kind
      case LSL =>
        if amount > 32 then Defined(Operand(0, false))
        else if amount == 32 then UndefinedShift
        else Defined(Operand(data << amount, Bit32(data, 32 - amount)))
      case LSR =>
        if amount > 32 then Defined(Operand(0, false))
        else if amount == 32 then UndefinedShift
        else Defined(Operand(data >> amount, Bit32(data, amount - 1)))
      case ASR =>
        if amount >= 32 then UndefinedShift
        else Defined(Operand(AsrAsWritten(data, amount), Bit32(data, amount - 1)))
      case ROR =>
        var n := if amount > 32 then (if amount % 32 == 0 then 32 else amount % 32) else amount;
        if n == 32 then UndefinedShift
        else Defined(Operand(RorAsWritten(data, n), Bit32(data, n - 1)))
  }

  /** The source's arithmetic shift: a logical shift, then ones ORed in at the top when bit 31
   *  was set. */
  function AsrAsWritten(x: dword, n: dword): dword
    requires 0 < n < 32
  {
    if Bit32(x, 31) then (x >> n) | (0xFFFF_FFFF << (32 - n)) else x >> n
  }

  /** The source's rotation: the n low bits are masked off, and put back at the top after the
   *  logical shift. */
  function RorAsWritten(x: dword, n: dword): dword
    requires 0 < n < 32
  {
    (x >> n) | ((x & (0xFFFF_FFFF >> (32 - n))) << (32 - n))
  }

  /** getDataProcessing_RxOP2 as written. */
  function RegisterOperandAsWritten(reg: seq<dword>, c: bool, op2: dword): Shifted
    requires |reg| == 16 && op2 < 0x1000
  {
    ShiftAsWritten(reg[DwordNat(op2 & 0xF)], c, KindOf(op2), ShiftAmount(reg, op2))
  }

  /** A rotation right by 1-31: the bits shifted out at the right come back in at the left. */
  function Ror(x: dword, n: dword): dword
    requires 0 < n < 32
  {
    (x >> n) | (x << (32 - n))
  }

  /** A rotation left by 1-31. */
  function Rol(x: dword, n: dword): dword
    requires 0 < n < 32
  {
    (x << n) | (x >> (32 - n))
  }

  /** An arithmetic shift right, defined as the complement of a logical shift of the complement
   *  when the sign bit is set. */
  function Asr(x: dword, n: dword): dword
    requires n < 32
  {
    if Bit32(x, 31) then !((!x) >> n) else x >> n
  }

  /** The register-shift operand of section A5.1: the shift amount is the low byte of Rs, and
   *  amounts of 32 and more have defined results. */
  function RegisterShift(rm: dword, c: bool, kind: ShiftKind, rs: dword): Operand
    requires rs < 0x100
  {
    if rs == 0 then Operand(rm, c)
    else
      match kind
      case LSL =>
        if rs < 32 then Operand(rm << rs, Bit32(rm, 32 - rs))
        else if rs == 32 then Operand(0, Bit32(rm, 0)) else Operand(0, false)
      case LSR =>
        if rs < 32 then Operand(rm >> rs, Bit32(rm, rs - 1))
        else if rs == 32 then Operand(0, Bit32(rm, 31)) else Operand(0, false)
      case ASR =>
        if rs < 32 then Operand(Asr(rm, rs), Bit32(rm, rs - 1))
        else Operand(if Bit32(rm, 31) then 0xFFFF_FFFF else 0, Bit32(rm, 31))
      case ROR =>
        var r := rs & 0x1F;
        if r == 0 then Operand(rm, Bit32(rm, 31))
        else Operand(Ror(rm, r), Bit32(rm, r - 1))
  }

  /** The immediate-shift operand of section A5.1: an amount of 0 means LSL #0 (Rm and the
   *  carry flag), LSR #32, ASR #32, or, for ROR, RRX. */
  function ImmediateShift(rm: dword, c: bool, kind: ShiftKind, imm: dword): Operand
    requires imm < 32
  {
    match kind
    case LSL => if imm == 0 then Operand(rm, c) else Operand(rm << imm, Bit32(rm, 32 - imm))
    case LSR => if imm == 0 then Operand(0, Bit32(rm, 31)) else Operand(rm >> imm, Bit32(rm, imm - 1))
    case ASR =>
      if imm == 0 then Operand(if Bit32(rm, 31) then 0xFFFF_FFFF else 0, Bit32(rm, 31))
      else Operand(Asr(rm, imm), Bit32(rm, imm - 1))
    case ROR =>
      if imm == 0 then Operand((if c then 0x8000_0000 else 0) | (rm >> 1), Bit32(rm, 0))
      else Operand(Ror(rm, imm), Bit32(rm, imm - 1))
  }

  /** The register operand as the architecture defines it. */
  function RegisterOperand(reg: seq<dword>, c: bool, op2: dword): Operand
    requires |reg| == 16 && op2 < 0x1000
  {
    var rm := reg[DwordNat(op2 & 0xF)];
    if ByRegister(op2) then RegisterShift(rm, c, KindOf(op2), ShiftAmount(reg, op2))
    else ImmediateShift(rm, c, KindOf(op2), ShiftAmount(reg, op2))
  }

  /** The encodings the early return misreads: an immediate amount 0 with a shift other than LSL. */
  predicate ImmediateZeroMisread(reg: seq<dword>, op2: dword)
    requires |reg| == 16 && op2 < 0x1000
  {
    !ByRegister(op2) && ShiftAmount(reg, op2) == 0 && KindOf(op2) != LSL
  }

  /** The register shifts the C leaves undefined: LSL or LSR by exactly 32, ASR by 32 or more,
   *  and ROR by a non-zero multiple of 32. */
  predicate UndefinedAmount(reg: seq<dword>, op2: dword)
    requires |reg| == 16 && op2 < 0x1000
  {
    var n := ShiftAmount(reg, op2);
    ByRegister(op2) &&
    match KindOf(op2)
    case LSL => n == 32
    case LSR => n == 32
    case ASR => n >= 32
    case ROR => n >= 32 && n & 0x1F == 0
  }

  /** Where it is defined and does not misread an immediate amount 0, getDataProcessing_RxOP2
   *  computes the architecture's operand and carry. */
  lemma RegisterOperandAgrees(reg: seq<dword>, c: bool, op2: dword)
    requires |reg| == 16 && op2 < 0x1000
    requires !ImmediateZeroMisread(reg, op2)
    ensures RegisterOperandAsWritten(reg, c, op2).Defined? ==>
              RegisterOperandAsWritten(reg, c, op2).operand == RegisterOperand(reg, c, op2)
  {
    var data := reg[DwordNat(op2 & 0xF)];
    var amount := ShiftAmount(reg, op2);
    match KindOf(op2)
    case LSL => LslAgrees(data, c, amount, ByRegister(op2));
    case LSR => LsrAgrees(data, c, amount, ByRegister(op2));
    case ASR => AsrAgrees(data, c, amount, ByRegister(op2));
    case ROR => RorAgrees(data, c, amount, ByRegister(op2));
  }

  /** The architecture's operand for a shift type and amount, by register or immediate. */
  function Reference(data: dword, c: bool, kind: ShiftKind, amount: dword, byRegister: bool): Operand
    requires amount < 0x100 && (byRegister || amount < 32)
  {
    if byRegister then RegisterShift(data, c, kind, amount) else ImmediateShift(data, c, kind, amount)
  }

  /** LSL: every defined case agrees, including the immediate amount 0. */
  lemma LslAgrees(data: dword, c: bool, amount: dword, byRegister: bool)
    requires amount < 0x100 && (byRegister || amount < 32)
    ensures ShiftAsWritten(data, c, LSL, amount).Defined? ==>
              ShiftAsWritten(data, c, LSL, amount).operand == Reference(data, c, LSL, amount, byRegister)
  {
    if amount == 0 {
    } else if amount < 32 {
      ShiftBelow32(data, c, LSL, amount, byRegister);
    } else {
      assert byRegister;
    }
  }

  /** LSR: every defined case agrees except the immediate amount 0. */
  lemma LsrAgrees(data: dword, c: bool, amount: dword, byRegister: bool)
    requires amount < 0x100 && (byRegister || 0 < amount < 32)
    ensures ShiftAsWritten(data, c, LSR, amount).Defined? ==>
              ShiftAsWritten(data, c, LSR, amount).operand == Reference(data, c, LSR, amount, byRegister)
  {
    if amount == 0 {
    } else if amount < 32 {
      ShiftBelow32(data, c, LSR, amount, byRegister);
    } else {
      assert byRegister;
    }
  }

  /** ASR: every defined case agrees except the immediate amount 0. */
  lemma AsrAgrees(data: dword, c: bool, amount: dword, byRegister: bool)
    requires amount < 0x100 && (byRegister || 0 < amount < 32)
    ensures ShiftAsWritten(data, c, ASR, amount).Defined? ==>
              ShiftAsWritten(data, c, ASR, amount).operand == Reference(data, c, ASR, amount, byRegister)
  {
    if 0 < amount < 32 {
      AsrWritten(data, amount);
      ShiftBelow32(data, c, ASR, amount, byRegister);
    }
  }

  /** ROR: every defined case agrees except the immediate amount 0 (RRX). */
  lemma RorAgrees(data: dword, c: bool, amount: dword, byRegister: bool)
    requires amount < 0x100 && (byRegister || 0 < amount < 32)
    ensures ShiftAsWritten(data, c, ROR, amount).Defined? ==>
              ShiftAsWritten(data, c, ROR, amount).operand == Reference(data, c, ROR, amount, byRegister)
  {
    if 0 < amount < 32 {
      RorWritten(data, amount);
      ShiftBelow32(data, c, ROR, amount, byRegister);
    } else if amount > 32 && amount % 32 != 0 {
      assert byRegister;
      RorWritten(data, amount % 32);
      RorAbove32(data, c, amount);
    }
  }

  /** For amounts 1-31 both sides apply the same shift of that amount, the register and the
   *  immediate forms alike. */
  lemma ShiftBelow32(data: dword, c: bool, kind: ShiftKind, amount: dword, byRegister: bool)
    requires 0 < amount < 32
    ensures ShiftAsWritten(data, c, kind, amount) == Defined(Small(data, kind, amount))
    ensures Reference(data, c, kind, amount, byRegister) == SmallReference(data, kind, amount)
  {
    WrittenBelow32(data, c, kind, amount);
    if byRegister {
      RegisterBelow32(data, c, kind, amount);
    } else {
      ImmediateBelow32(data, c, kind, amount);
    }
  }

  lemma WrittenBelow32(data: dword, c: bool, kind: ShiftKind, amount: dword)
    requires 0 < amount < 32
    ensures ShiftAsWritten(data, c, kind, amount) == Defined(Small(data, kind, amount))
  {
  }

  lemma RegisterBelow32(data: dword, c: bool, kind: ShiftKind, amount: dword)
    requires 0 < amount < 32
    ensures RegisterShift(data, c, kind, amount) == SmallReference(data, kind, amount)
  {
    if kind == ROR {
      assert amount & 0x1F == amount;
    }
  }

  lemma ImmediateBelow32(data: dword, c: bool, kind: ShiftKind, amount: dword)
    requires 0 < amount < 32
    ensures ImmediateShift(data, c, kind, amount) == SmallReference(data, kind, amount)
  {
  }

  /** The source's result for an amount 1-31. */
  function Small(data: dword, kind: ShiftKind, amount: dword): Operand
    requires 0 < amount < 32
  {
    match kind
    case LSL => Operand(data << amount, Bit32(data, 32 - amount))
    case LSR => Operand(data >> amount, Bit32(data, amount - 1))
    case ASR => Operand(AsrAsWritten(data, amount), Bit32(data, amount - 1))
    case ROR => Operand(RorAsWritten(data, amount), Bit32(data, amount - 1))
  }

  /** The architecture's result for an amount 1-31. */
  function SmallReference(data: dword, kind: ShiftKind, amount: dword): Operand
    requires 0 < amount < 32
  {
    match kind
    case LSL => Operand(data << amount, Bit32(data, 32 - amount))
    case LSR => Operand(data >> amount, Bit32(data, amount - 1))
    case ASR => Operand(Asr(data, amount), Bit32(data, amount - 1))
    case ROR => Operand(Ror(data, amount), Bit32(data, amount - 1))
  }

  /** A register ROR above 32 that is no multiple of 32 rotates by the amount mod 32 on both
   *  sides. */
  lemma RorAbove32(data: dword, c: bool, amount: dword)
    requires 32 < amount < 0x100 && amount % 32 != 0
    ensures ShiftAsWritten(data, c, ROR, amount) ==
              Defined(Operand(RorAsWritten(data, amount % 32), Bit32(data, amount % 32 - 1)))
    ensures Reference(data, c, ROR, amount, true) ==
              Operand(Ror(data, amount % 32), Bit32(data, amount % 32 - 1))
  {
    assert amount & 0x1F == amount % 32;
  }

  /** The OR-mask form of the arithmetic shift equals the complement form. */
  lemma AsrWritten(x: dword, n: dword)
    requires 0 < n < 32
    ensures AsrAsWritten(x, n) == Asr(x, n)
  {
    if Bit32(x, 31) {
      NegativeAsr(x, n);
    }
  }

  lemma NegativeAsr(x: dword, n: dword)
    requires 0 < n < 32 && (x >> 31) & 1 == 1
    ensures (x >> n) | (0xFFFF_FFFF << (32 - n)) == !((!x) >> n)
  {
  }

  /** The mask-and-shift form of the rotation equals Ror. */
  lemma RorWritten(x: dword, n: dword)
    requires 0 < n < 32
    ensures RorAsWritten(x, n) == Ror(x, n)
  {
    MaskedRotation(x, n);
  }

  lemma MaskedRotation(x: dword, n: dword)
    requires 0 < n < 32
    ensures (x >> n) | ((x & (0xFFFF_FFFF >> (32 - n))) << (32 - n)) == Ror(x, n)
  {
  }

  /** getDataProcessing_RxOP2 is undefined exactly at the register shifts of UndefinedAmount. */
  lemma RegisterOperandUndefined(reg: seq<dword>, c: bool, op2: dword)
    requires |reg| == 16 && op2 < 0x1000
    ensures RegisterOperandAsWritten(reg, c, op2) == UndefinedShift <==> UndefinedAmount(reg, op2)
  {
  }

  /** LSR #0 and ROR #0 of R0 = 1 with the carry clear: the source returns R0 and the clear
   *  carry, where the architecture gives LSR #32 = 0 with carry 0, and RRX = 0 with carry 1. */
  lemma ImmediateZeroCounterexample(reg: seq<dword>)
    requires |reg| == 16 && reg[0] == 1
    ensures RegisterOperandAsWritten(reg, false, 0x020) == Defined(Operand(1, false))
    ensures RegisterOperand(reg, false, 0x020) == Operand(0, false)
    ensures RegisterOperandAsWritten(reg, false, 0x060) == Defined(Operand(1, false))
    ensures RegisterOperand(reg, false, 0x060) == Operand(0, true)
  {
  }

  /** LSL by R1 = 32: undefined in the source, 0 with carry = bit 0 of Rm in the architecture. */
  lemma ShiftBy32Counterexample(reg: seq<dword>)
    requires |reg| == 16 && reg[0] == 1 && reg[1] == 32
    ensures RegisterOperandAsWritten(reg, false, 0x110) == UndefinedShift
    ensures RegisterOperand(reg, false, 0x110) == Operand(0, true)
  {
  }

  // ---------------------------------------------------------------------------------------
  // Immediate operand

  /** getDataProcessing_ImmOP2 as written: imm8 rotated right by twice bits 10-7, nothing where
   *  the rotation is 0 (a shift by 32 in C). */
  function ImmOperandAsWritten(op2: dword): (r: Option<dword>)
    requires op2 < 0x1_0000
    ensures r.Some? <==> (op2 >> 7) & 0xF != 0
  {
    var imm := op2 & 0xFF;
    var rotate := ((op2 >> 7) & 0xF) * 2;
    if rotate == 0 then None else Some(RorAsWritten(imm, rotate))
  }

  /** The immediate operand of section A5.1.3 of the ARM Architecture Reference Manual: imm8
   *  (bits 7-0) rotated right by twice rotate_imm (bits 11-8); rotate_imm = 0 gives imm8.
   *  Rotating the result back left gives imm8. */
  function ImmOperand(op2: dword): (r: dword)
    requires op2 < 0x1000
    ensures (op2 >> 8) & 0xF == 0 ==> r == op2 & 0xFF
    ensures (op2 >> 8) & 0xF != 0 ==> Rol(r, 2 * ((op2 >> 8) & 0xF)) == op2 & 0xFF
  {
    var rotate := (op2 >> 8) & 0xF;
    if rotate == 0 then op2 & 0xFF
    else (RolRor(op2 & 0xFF, rotate); Ror(op2 & 0xFF, 2 * rotate))
  }

  /** Rotating a byte right by an even amount and back left restores it. */
  lemma RolRor(x: dword, n: dword)
    requires 0 < n < 16 && x < 0x100
    ensures Rol(Ror(x, 2 * n), 2 * n) == x
  {
  }

  /** Where it is defined, the source rotates imm8 right by twice bits 10-7. */
  lemma ImmOperandAsWrittenRotates(op2: dword)
    requires op2 < 0x1000 && (op2 >> 7) & 0xF != 0
    ensures ImmOperandAsWritten(op2) == Some(Ror(op2 & 0xFF, 2 * ((op2 >> 7) & 0xF)))
  {
    RorWritten(op2 & 0xFF, 2 * ((op2 >> 7) & 0xF));
  }

  /** Operand 0x101 (imm8 = 1, rotate_imm = 1): the source rotates by 4, the architecture by 2. */
  lemma ImmOperandCounterexample()
    ensures ImmOperandAsWritten(0x101) == Some(0x1000_0000)
    ensures ImmOperand(0x101) == 0x4000_0000
  {
  }
}
