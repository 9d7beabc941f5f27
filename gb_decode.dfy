// The opcode tables of gb/cpu.c: the 256-way switch of dispatch and the CB-prefixed
// switch of prefixCB, as functions from the opcode byte to an instruction.
// The switches list every opcode literally; both are regular in the usual SM83 bit fields
// x = op >> 6, y = (op >> 3) & 7, z = op & 7 (and p = y >> 1, q = y & 1), which is how
// the decoders below are written. Opcode is the inverse of Decode.

module GbDecode {
  import opened Bits
  import opened GbState
  import GbCpu

  /** The operand encoded in three bits: B, C, D, E, H, L, (HL), A. */
  datatype Operand = OpB | OpC | OpD | OpE | OpH | OpL | OpHL | OpA

  function OperandAt(k: nat): (o: Operand)
    requires k < 8
    ensures OperandCode(o) == k
  {
    [OpB, OpC, OpD, OpE, OpH, OpL, OpHL, OpA][k]
  }

  function OperandCode(o: Operand): nat
  {
    match o
    case OpB => 0
    case OpC => 1
    case OpD => 2
    case OpE => 3
    case OpH => 4
    case OpL => 5
    case OpHL => 6
    case OpA => 7
  }

  /** The register an operand other than (HL) names. */
  function OperandReg(o: Operand): (r: Reg8)
    requires o != OpHL
    ensures r != RegF && r != RegSpHigh && r != RegSpLow
  {
    match o
    case OpB => RegB
    case OpC => RegC
    case OpD => RegD
    case OpE => RegE
    case OpH => RegH
    case OpL => RegL
    case OpA => RegA
  }

  /** addR8, adcR8, subR8, sbcR8, andR8, xorR8, orR8, compareR8, in encoding order. */
  datatype AluOp = AluAdd | AluAdc | AluSub | AluSbc | AluAnd | AluXor | AluOr | AluCp

  function AluOpAt(k: nat): (a: AluOp)
    requires k < 8
    ensures AluOpCode(a) == k
  {
    [AluAdd, AluAdc, AluSub, AluSbc, AluAnd, AluXor, AluOr, AluCp][k]
  }

  function AluOpCode(a: AluOp): nat
  {
    match a
    case AluAdd => 0
    case AluAdc => 1
    case AluSub => 2
    case AluSbc => 3
    case AluAnd => 4
    case AluXor => 5
    case AluOr => 6
    case AluCp => 7
  }

  /** The rotate and shift helpers of the CB table, in encoding order:
   *  rotateLeft (RLC), rotateRight (RRC), rotateLeftCarry (RL), rotateRightCarry (RR),
   *  shiftLeftArithmetic (SLA), shiftRightArithmetic (SRA), swap, shiftRightLogical (SRL). */
  datatype ShiftOp = ShRlc | ShRrc | ShRl | ShRr | ShSla | ShSra | ShSwap | ShSrl

  function ShiftOpAt(k: nat): (s: ShiftOp)
    requires k < 8
    ensures ShiftOpCode(s) == k
  {
    [ShRlc, ShRrc, ShRl, ShRr, ShSla, ShSra, ShSwap, ShSrl][k]
  }

  function ShiftOpCode(s: ShiftOp): nat
  {
    match s
    case ShRlc => 0
    case ShRrc => 1
    case ShRl => 2
    case ShRr => 3
    case ShSla => 4
    case ShSra => 5
    case ShSwap => 6
    case ShSrl => 7
  }

  /** A CB-prefixed instruction: a rotate or shift, or testBit / resetBit / setBit of bit n. */
  datatype CbInstr =
    | Shift(op: ShiftOp, o: Operand)
    | TestBit(n: nat, o: Operand)
    | ResetBit(n: nat, o: Operand)
    | SetBit(n: nat, o: Operand)

  /** prefixCB's switch. Rotates in the CB table set Z from the result (setZFlag true). */
  function DecodeCB(op: byte): (i: CbInstr)
    ensures ByteNat(op) < 0x40 <==> i.Shift?
    ensures i.Shift? ==> ShiftOpCode(i.op) == ByteNat(op) / 8
    ensures 0x40 <= ByteNat(op) < 0x80 <==> i.TestBit?
    ensures 0x80 <= ByteNat(op) < 0xC0 <==> i.ResetBit?
    ensures 0xC0 <= ByteNat(op) <==> i.SetBit?
    ensures !i.Shift? ==> i.n == ByteNat(op) / 8 % 8
    ensures OperandCode(i.o) == ByteNat(op) % 8
  {
    var n := ByteNat(op);
    var o := OperandAt(n % 8);
    var y := n / 8 % 8;
    if n < 0x40 then Shift(ShiftOpAt(n / 8), o)
    else if n < 0x80 then TestBit(y, o)
    else if n < 0xC0 then ResetBit(y, o)
    else SetBit(y, o)
  }

  /** The CB opcode of an instruction: DecodeCB's inverse. */
  function OpcodeCB(i: CbInstr): nat
  {
    match i
    case Shift(s, o) => 8 * ShiftOpCode(s) + OperandCode(o)
    case TestBit(n, o) => 0x40 + 8 * n + OperandCode(o)
    case ResetBit(n, o) => 0x80 + 8 * n + OperandCode(o)
    case SetBit(n, o) => 0xC0 + 8 * n + OperandCode(o)
  }

  lemma DecodeCBInverse(op: byte)
    ensures OpcodeCB(DecodeCB(op)) == ByteNat(op)
  {
    var n := ByteNat(op);
    DigitsOf(n);
    CbFieldsInverse(n, n / 8 % 8, n % 8, DecodeCB(op));
  }

  /** An instruction with the block, bit number and operand fields of n has CB opcode n. */
  lemma CbFieldsInverse(n: nat, y: nat, z: nat, i: CbInstr)
    requires n < 256 && y == n / 8 % 8 && z == n % 8 && n == 64 * (n / 64) + 8 * y + z
    requires OperandCode(i.o) == z
    requires i.Shift? ==> n < 0x40 && ShiftOpCode(i.op) == n / 8
    requires i.TestBit? ==> 0x40 <= n < 0x80 && i.n == y
    requires i.ResetBit? ==> 0x80 <= n < 0xC0 && i.n == y
    requires i.SetBit? ==> 0xC0 <= n && i.n == y
    ensures OpcodeCB(i) == n
  {
  }

  /** The three fields of an opcode give it back. */
  lemma DigitsOf(n: nat)
    requires n < 256
    ensures n == 64 * (n / 64) + 8 * (n / 8 % 8) + n % 8
    ensures n / 8 == 8 * (n / 64) + n / 8 % 8
    ensures n / 64 < 4
  {
  }

  /** The addressing forms of LD (rr), A and LD A, (rr): BC, DE, HL then HL+1, HL then HL-1. */
  datatype Indirect = ViaBC | ViaDE | ViaHLInc | ViaHLDec

  function IndirectAt(k: nat): (m: Indirect)
    requires k < 4
    ensures IndirectCode(m) == k
  {
    [ViaBC, ViaDE, ViaHLInc, ViaHLDec][k]
  }

  function IndirectCode(m: Indirect): nat
  {
    match m
    case ViaBC => 0
    case ViaDE => 1
    case ViaHLInc => 2
    case ViaHLDec => 3
  }

  function ConditionAt(k: nat): (c: GbCpu.Condition)
    requires k < 4
    ensures ConditionCode(c) == k
  {
    [GbCpu.CondNZ, GbCpu.CondZ, GbCpu.CondNC, GbCpu.CondC][k]
  }

  function ConditionCode(c: GbCpu.Condition): nat
  {
    match c
    case CondNZ => 0
    case CondZ => 1
    case CondNC => 2
    case CondC => 3
  }

  /** The pairs of LD rr, d16 / INC rr / DEC rr / ADD HL, rr. */
  function PairAt(k: nat): (rr: Reg16)
    requires k < 4
    ensures rr != AF
    ensures PairCode(rr) == k
  {
    [BC, DE, HL, SP][k]
  }

  /** The pairs of PUSH rr / POP rr. */
  function StackPairAt(k: nat): (rr: Reg16)
    requires k < 4
    ensures rr != SP
    ensures PairCode(rr) == k
  {
    [BC, DE, HL, AF][k]
  }

  function PairCode(rr: Reg16): nat
  {
    match rr
    case BC => 0
    case DE => 1
    case HL => 2
    case SP => 3
    case AF => 3
  }

  /** One case of dispatch's switch. */
  datatype Instr =
    | Nop | Stop | Halt
    | Unused                                   // no case: the switch does nothing
    | Load8(dst: Operand, src: Operand)        // LOAD_R_R, LOAD_R_ARR, LOAD_ARR_R
    | Load8Imm(dst: Operand)                   // LOAD_R_D8, LOAD_ARR_D8
    | Inc8(o: Operand)                         // incrementR8, 0x34
    | Dec8(o: Operand)                         // decrementR8, 0x35
    | Alu(aop: AluOp, src: Operand)            // 0x80-0xBF
    | AluImm(aop: AluOp)                       // addR8D8 ... compareR8D8
    | RotateA(sop: ShiftOp)                    // RLCA, RRCA, RLA, RRA (Z cleared)
    | Daa | Cpl | Scf | Ccf
    | Load16Imm(rr: Reg16)                     // LOAD_RR_D16
    | Inc16(rr: Reg16)                         // INC_RR
    | Dec16(rr: Reg16)                         // DEC_RR
    | AddHL(rr: Reg16)                         // addR16(HL, rr)
    | StoreA(via: Indirect)                    // 0x02, 0x12, 0x22, 0x32
    | LoadA(via: Indirect)                     // 0x0A, 0x1A, 0x2A, 0x3A
    | StoreSP                                  // 0x08: LD (a16), SP
    | JumpRelative                             // JUMP_RL
    | JumpRelativeIf(cond: GbCpu.Condition)    // jumpRelativeCondition
    | Jump                                     // JUMP
    | JumpIf(cond: GbCpu.Condition)            // jumpCondition
    | JumpHL                                   // JUMP_RR(HL)
    | Call                                     // call
    | CallIf(cond: GbCpu.Condition)            // callCondition
    | Return                                   // ret
    | ReturnIf(cond: GbCpu.Condition)          // retCondition
    | ReturnEnable                             // RETI: INTERRUPT_MASTER_ENABLE, ret
    | Restart(k: nat)                          // RST 8k
    | Push(rr: Reg16)                          // PUSH_R16
    | Pop(rr: Reg16)                           // POP_R16 (POP AF also clears F's low nibble)
    | PrefixCB
    | StoreHigh | LoadHigh                     // LOAD_D8PORT_R, LOAD_R_D8PORT
    | StoreHighC | LoadHighC                   // LOAD_RPORT_R, LOAD_R_RPORT
    | StoreAbs | LoadAbs                       // LOAD_MEM_R, LOAD_R_MEM
    | AddSP                                    // addR16I8(SP)
    | LoadHLSP                                 // load_rr_rri8(HL, SP)
    | LoadSPHL                                 // LOAD_RR_RR(SP, HL)
    | DisableInterrupts | EnableInterrupts

  /** The eleven opcodes the switch has no case for. */
  predicate UnusedOpcode(n: nat)
  {
    n == 0xD3 || n == 0xDB || n == 0xDD || n == 0xE3 || n == 0xE4 || n == 0xEB ||
    n == 0xEC || n == 0xED || n == 0xF4 || n == 0xFC || n == 0xFD
  }

  /** dispatch's switch. */
  function Decode(op: byte): Instr
  {
    DecodeAt(ByteNat(op))
  }

  function DecodeAt(n: nat): (i: Instr)
    requires n < 256
  {
    var x, y, z := n / 64, n / 8 % 8, n % 8;
    if x == 0 then Block0(y, z)
    else if x == 1 then (if y == 6 && z == 6 then Halt else Load8(OperandAt(y), OperandAt(z)))
    else if x == 2 then Alu(AluOpAt(y), OperandAt(z))
    else Block3(y, z)
  }

  /** Opcodes 0x00-0x3F. */
  function Block0(y: nat, z: nat): Instr
    requires y < 8 && z < 8
  {
    var p, q := y / 2, y % 2;
    match z
    case 0 =>
      if y == 0 then Nop
      else if y == 1 then StoreSP
      else if y == 2 then Stop
      else if y == 3 then JumpRelative
      else JumpRelativeIf(ConditionAt(y - 4))
    case 1 => if q == 0 then Load16Imm(PairAt(p)) else AddHL(PairAt(p))
    case 2 => if q == 0 then StoreA(IndirectAt(p)) else LoadA(IndirectAt(p))
    case 3 => if q == 0 then Inc16(PairAt(p)) else Dec16(PairAt(p))
    case 4 => Inc8(OperandAt(y))
    case 5 => Dec8(OperandAt(y))
    case 6 => Load8Imm(OperandAt(y))
    case _ =>
      if y < 4 then RotateA(ShiftOpAt(y))
      else if y == 4 then Daa
      else if y == 5 then Cpl
      else if y == 6 then Scf
      else Ccf
  }

  /** Opcodes 0xC0-0xFF. */
  function Block3(y: nat, z: nat): Instr
    requires y < 8 && z < 8
  {
    var p, q := y / 2, y % 2;
    match z
    case 0 =>
      if y < 4 then ReturnIf(ConditionAt(y))
      else if y == 4 then StoreHigh
      else if y == 5 then AddSP
      else if y == 6 then LoadHigh
      else LoadHLSP
    case 1 =>
      if q == 0 then Pop(StackPairAt(p))
      else if p == 0 then Return
      else if p == 1 then ReturnEnable
      else if p == 2 then JumpHL
      else LoadSPHL
    case 2 =>
      if y < 4 then JumpIf(ConditionAt(y))
      else if y == 4 then StoreHighC
      else if y == 5 then StoreAbs
      else if y == 6 then LoadHighC
      else LoadAbs
    case 3 =>
      if y == 0 then Jump
      else if y == 1 then PrefixCB
      else if y == 6 then DisableInterrupts
      else if y == 7 then EnableInterrupts
      else Unused
    case 4 => if y < 4 then CallIf(ConditionAt(y)) else Unused
    case 5 => if q == 0 then Push(StackPairAt(p)) else if p == 0 then Call else Unused
    case 6 => AluImm(AluOpAt(y))
    case _ => Restart(y)
  }

  /** The opcode of an instruction: the case of the switch that names it. Unused stands for
   *  0xD3, the first of the opcodes without a case. */
  function Opcode(i: Instr): nat
  {
    match i
    case Nop => 0x00
    case StoreSP => 0x08
    case Stop => 0x10
    case JumpRelative => 0x18
    case JumpRelativeIf(c) => 0x20 + 8 * ConditionCode(c)
    case Load16Imm(rr) => 0x01 + 16 * PairCode(rr)
    case AddHL(rr) => 0x09 + 16 * PairCode(rr)
    case StoreA(m) => 0x02 + 16 * IndirectCode(m)
    case LoadA(m) => 0x0A + 16 * IndirectCode(m)
    case Inc16(rr) => 0x03 + 16 * PairCode(rr)
    case Dec16(rr) => 0x0B + 16 * PairCode(rr)
    case Inc8(o) => 0x04 + 8 * OperandCode(o)
    case Dec8(o) => 0x05 + 8 * OperandCode(o)
    case Load8Imm(o) => 0x06 + 8 * OperandCode(o)
    case RotateA(s) => 0x07 + 8 * ShiftOpCode(s)
    case Daa => 0x27
    case Cpl => 0x2F
    case Scf => 0x37
    case Ccf => 0x3F
    case Halt => 0x76
    case Load8(d, s) => 0x40 + 8 * OperandCode(d) + OperandCode(s)
    case Alu(a, s) => 0x80 + 8 * AluOpCode(a) + OperandCode(s)
    case ReturnIf(c) => 0xC0 + 8 * ConditionCode(c)
    case StoreHigh => 0xE0
    case AddSP => 0xE8
    case LoadHigh => 0xF0
    case LoadHLSP => 0xF8
    case Pop(rr) => 0xC1 + 16 * PairCode(rr)
    case Return => 0xC9
    case ReturnEnable => 0xD9
    case JumpHL => 0xE9
    case LoadSPHL => 0xF9
    case JumpIf(c) => 0xC2 + 8 * ConditionCode(c)
    case StoreHighC => 0xE2
    case StoreAbs => 0xEA
    case LoadHighC => 0xF2
    case LoadAbs => 0xFA
    case Jump => 0xC3
    case PrefixCB => 0xCB
    case Unused => 0xD3
    case DisableInterrupts => 0xF3
    case EnableInterrupts => 0xFB
    case CallIf(c) => 0xC4 + 8 * ConditionCode(c)
    case Push(rr) => 0xC5 + 16 * PairCode(rr)
    case Call => 0xCD
    case AluImm(a) => 0xC6 + 8 * AluOpCode(a)
    case Restart(k) => 0xC7 + 8 * k
  }

  /** Every opcode with a case decodes to an instruction whose opcode it is: no two cases of
   *  the switch do the same thing, and the bit fields select the case. */
  lemma DecodeInverse(op: byte)
    ensures Decode(op) != Unused ==> Opcode(Decode(op)) == ByteNat(op)
  {
    var n := ByteNat(op);
    if n < 64 {
      LowInverse(n);
    } else if n < 128 {
      MiddleInverse(n);
    } else if n < 192 {
      AluInverse(n);
    } else {
      HighInverse(n);
    }
  }

  lemma LowInverse(n: nat)
    requires n < 64
    ensures Opcode(DecodeAt(n)) == n
  {
    DigitsOf(n);
    Block0Inverse(n / 8 % 8, n % 8);
  }

  lemma MiddleInverse(n: nat)
    requires 64 <= n < 128
    ensures Opcode(DecodeAt(n)) == n
  {
    DigitsOf(n);
  }

  lemma AluInverse(n: nat)
    requires 128 <= n < 192
    ensures Opcode(DecodeAt(n)) == n
  {
    DigitsOf(n);
  }

  lemma HighInverse(n: nat)
    requires 192 <= n < 256
    ensures DecodeAt(n) != Unused ==> Opcode(DecodeAt(n)) == n
  {
    DigitsOf(n);
    Block3Inverse(n / 8 % 8, n % 8);
  }

  lemma Block0Inverse(y: nat, z: nat)
    requires y < 8 && z < 8
    ensures Opcode(Block0(y, z)) == 8 * y + z
  {
    if z < 4 {
      Block0LeftInverse(y, z);
    } else {
      Block0RightInverse(y, z);
    }
  }

  lemma Block0LeftInverse(y: nat, z: nat)
    requires y < 8 && z < 4
    ensures Opcode(Block0(y, z)) == 8 * y + z
  {
  }

  lemma Block0RightInverse(y: nat, z: nat)
    requires y < 8 && 4 <= z < 8
    ensures Opcode(Block0(y, z)) == 8 * y + z
  {
  }

  lemma Block3Inverse(y: nat, z: nat)
    requires y < 8 && z < 8
    ensures Block3(y, z) != Unused ==> Opcode(Block3(y, z)) == 0xC0 + 8 * y + z
  {
    if z < 4 {
      Block3LeftInverse(y, z);
    } else {
      Block3RightInverse(y, z);
    }
  }

  lemma Block3LeftInverse(y: nat, z: nat)
    requires y < 8 && z < 4
    ensures Block3(y, z) != Unused ==> Opcode(Block3(y, z)) == 0xC0 + 8 * y + z
  {
    if z < 2 {
      Block3ReturnsInverse(y, z);
    } else {
      Block3JumpsInverse(y, z);
    }
  }

  lemma Block3ReturnsInverse(y: nat, z: nat)
    requires y < 8 && z < 2
    ensures Opcode(Block3(y, z)) == 0xC0 + 8 * y + z
  {
  }

  lemma Block3JumpsInverse(y: nat, z: nat)
    requires y < 8 && 2 <= z < 4
    ensures Block3(y, z) != Unused ==> Opcode(Block3(y, z)) == 0xC0 + 8 * y + z
  {
  }

  lemma Block3RightInverse(y: nat, z: nat)
    requires y < 8 && 4 <= z < 8
    ensures Block3(y, z) != Unused ==> Opcode(Block3(y, z)) == 0xC0 + 8 * y + z
  {
  }

  /** The switch has no case for exactly the eleven unused opcodes. */
  lemma DecodeUnused(op: byte)
    ensures Decode(op) == Unused <==> UnusedOpcode(ByteNat(op))
  {
    var n := ByteNat(op);
    if n < 64 {
      assert DecodeAt(n) == Block0(n / 8 % 8, n % 8);
      Block0Used(n / 8 % 8, n % 8);
    } else if n < 192 {
      MiddleUsed(n);
    } else {
      HighUnused(n);
    }
  }

  lemma HighUnused(n: nat)
    requires 192 <= n < 256
    ensures DecodeAt(n) == Unused <==> UnusedOpcode(n)
  {
    var y, z := n / 8 % 8, n % 8;
    assert n == 0xC0 + 8 * y + z;
    assert DecodeAt(n) == Block3(y, z);
    Block3Unused(y, z);
  }

  lemma MiddleUsed(n: nat)
    requires 64 <= n < 192
    ensures DecodeAt(n) != Unused && !UnusedOpcode(n)
  {
  }

  lemma Block0Used(y: nat, z: nat)
    requires y < 8 && z < 8
    ensures Block0(y, z) != Unused
  {
  }

  lemma Block3Unused(y: nat, z: nat)
    requires y < 8 && z < 8
    ensures Block3(y, z) == Unused <==> UnusedOpcode(0xC0 + 8 * y + z)
  {
  }

  /** 0x40-0x7F other than 0x76 (HALT) is LD r, r' with the destination in bits 3-5 and the
   *  source in bits 0-2; 0x80-0xBF is the ALU operation of bits 3-5 on the operand in bits 0-2. */
  lemma DecodeLoadAndAluBlocks(op: byte)
    ensures 0x40 <= ByteNat(op) < 0x80 && ByteNat(op) != 0x76 <==> Decode(op).Load8?
    ensures Decode(op).Load8? ==>
              OperandCode(Decode(op).dst) == ByteNat(op) / 8 % 8 && OperandCode(Decode(op).src) == ByteNat(op) % 8
    ensures 0x80 <= ByteNat(op) < 0xC0 <==> Decode(op).Alu?
    ensures Decode(op).Alu? ==>
              AluOpCode(Decode(op).aop) == ByteNat(op) / 8 % 8 && OperandCode(Decode(op).src) == ByteNat(op) % 8
  {
    var n := ByteNat(op);
    DigitsOf(n);
    if n / 64 == 0 {
      Block0Other(n / 8 % 8, n % 8);
    } else if n / 64 == 3 {
      Block3Other(n / 8 % 8, n % 8);
    }
  }

  lemma Block0Other(y: nat, z: nat)
    requires y < 8 && z < 8
    ensures !Block0(y, z).Load8? && !Block0(y, z).Alu?
  {
  }

  lemma Block3Other(y: nat, z: nat)
    requires y < 8 && z < 8
    ensures !Block3(y, z).Load8? && !Block3(y, z).Alu?
  {
  }

  /** What the cases of the switch guarantee of their operands: RST targets one of the eight
   *  vectors, RLCA, RRCA, RLA and RRA use the four rotates, PUSH and POP name AF rather than
   *  SP, and (HL), (HL) is HALT rather than a load. */
  predicate WellFormed(i: Instr)
  {
    match i
    case Restart(k) => k < 8
    case RotateA(s) => ShiftOpCode(s) < 4
    case Load8(d, s) => d != OpHL || s != OpHL
    case Push(rr) => rr != SP
    case Pop(rr) => rr != SP
    case _ => true
  }

  lemma DecodeWellFormed(op: byte)
    ensures WellFormed(Decode(op))
  {
    var n := ByteNat(op);
    if n < 64 {
      assert DecodeAt(n) == Block0(n / 8 % 8, n % 8);
      Block0WellFormed(n / 8 % 8, n % 8);
    } else if n < 192 {
      MiddleWellFormed(n);
    } else {
      assert DecodeAt(n) == Block3(n / 8 % 8, n % 8);
      Block3WellFormed(n / 8 % 8, n % 8);
    }
  }

  lemma MiddleWellFormed(n: nat)
    requires 64 <= n < 192
    ensures WellFormed(DecodeAt(n))
  {
  }

  lemma Block0WellFormed(y: nat, z: nat)
    requires y < 8 && z < 8
    ensures WellFormed(Block0(y, z))
  {
  }

  lemma Block3WellFormed(y: nat, z: nat)
    requires y < 8 && z < 8
    ensures WellFormed(Block3(y, z))
  {
  }
}
