// The disassembler of gb/debug.c: disassembleInstruction and disassembleCBInstruction, the
// operand readers behind them (d8, d16, a16, r8 and read2Bytes), and the flag field of
// printFlags. A line is the format string a table entry hands to sprintf together with the
// value it formats; how sprintf renders %02x, %04x and %d is not modelled.

module GbDebug {
  import opened Bits
  import opened GbState
  import opened GbBus
  import opened GbDecode
  import GbCpu
  import GbExec

  /** The helper a table entry calls: simpleInstruction, d8, d16, a16 or r8. */
  datatype Kind = Simple | D8 | D16 | A16 | R8

  /** One case of a disassembler switch: the helper and its format string. */
  datatype Entry = Entry(kind: Kind, format: string)

  /** What the helper writes into the output buffer: the bare text, or the format string and
   *  the one value sprintf is given for it. */
  datatype Line = Text(text: string) | Formatted(format: string, value: int)

  // ---------------------------------------------------------------------------------------
  // Operands

  /** read2Bytes: the byte after the opcode is the low half, the one after it the high half. */
  function Read2Bytes(b1: byte, b2: byte): (w: word)
    ensures Lo(w) == b1 && Hi(w) == b2
    ensures WordNat(w) == 256 * ByteNat(b2) + ByteNat(b1)
  {
    HiLoJoin(b2, b1);
    WordBytes(Join(b2, b1));
    Join(b2, b1)
  }

  /** The `(int8_t)` cast of r8: the byte read as a two's-complement number. */
  function Signed(b: byte): (v: int)
    ensures -128 <= v < 128
    ensures v < 0 <==> b >= 0x80
    ensures v % 256 == ByteNat(b)
  {
    if b < 0x80 then ByteNat(b) else ByteNat(b) - 256
  }

  /** How many bytes after the opcode a helper reads. */
  function OperandLength(k: Kind): (n: nat)
    ensures n <= 2
  {
    match k
    case Simple => 0
    case D8 => 1
    case R8 => 1
    case D16 => 2
    case A16 => 2
  }

  /** What the helper of an entry writes, given the bytes at PC+1 and PC+2. */
  function Render(e: Entry, b1: byte, b2: byte): (l: Line)
    ensures e.kind == Simple ==> l == Text(e.format)
    ensures e.kind != Simple ==> l.Formatted? && l.format == e.format
    ensures e.kind == D8 ==> l.value == ByteNat(b1)
    ensures e.kind == R8 ==> l.value == Signed(b1)
    ensures e.kind == D16 || e.kind == A16 ==> l.value == 256 * ByteNat(b2) + ByteNat(b1)
  {
    match e.kind
    case Simple => Text(e.format)
    case D8 => Formatted(e.format, ByteNat(b1))
    case R8 => Formatted(e.format, Signed(b1))
    case D16 => Formatted(e.format, WordNat(Read2Bytes(b1, b2)))
    case A16 => Formatted(e.format, WordNat(Read2Bytes(b1, b2)))
  }

  // ---------------------------------------------------------------------------------------
  // The tables

  /** The operand names in the order of the low three opcode bits. */
  function OperandName(o: Operand): string
  {
    match o
    case OpB => "B"
    case OpC => "C"
    case OpD => "D"
    case OpE => "E"
    case OpH => "H"
    case OpL => "L"
    case OpHL => "(HL)"
    case OpA => "A"
  }

  /** The text before the operand in 0x80-0xBF and before the immediate in the d8 forms. */
  function AluPrefix(a: AluOp): string
  {
    match a
    case AluAdd => "ADD A, "
    case AluAdc => "ADC A, "
    case AluSub => "SUB "
    case AluSbc => "SBC A, "
    case AluAnd => "AND "
    case AluXor => "XOR "
    case AluOr => "OR "
    case AluCp => "CP "
  }

  function ShiftName(s: ShiftOp): string
  {
    match s
    case ShRlc => "RLC"
    case ShRrc => "RRC"
    case ShRl => "RL"
    case ShRr => "RR"
    case ShSla => "SLA"
    case ShSra => "SRA"
    case ShSwap => "SWAP"
    case ShSrl => "SRL"
  }

  /** Opcodes 0x00-0x3F, as the switch lists them: row y holds 8y .. 8y+7. */
  const BLOCK0_ROW0: seq<Entry> :=
    [Entry(Simple, "NOP"), Entry(D16, "LD BC, 0x%04x"), Entry(Simple, "LD (BC), A"), Entry(Simple, "INC BC"),
     Entry(Simple, "INC B"), Entry(Simple, "DEC B"), Entry(D8, "LD B, 0x%02x"), Entry(Simple, "RLCA")]
  const BLOCK0_ROW1: seq<Entry> :=
    [Entry(A16, "LD 0x%04x, SP"), Entry(Simple, "ADD HL, BC"), Entry(Simple, "LD A, (BC)"), Entry(Simple, "DEC BC"),
     Entry(Simple, "INC C"), Entry(Simple, "DEC C"), Entry(D8, "LD C, 0x%02x"), Entry(Simple, "RRCA")]
  const BLOCK0_ROW2: seq<Entry> :=
    [Entry(Simple, "STOP"), Entry(D16, "LD DE, 0x%04x"), Entry(Simple, "LD (DE), A"), Entry(Simple, "INC DE"),
     Entry(Simple, "INC D"), Entry(Simple, "DEC D"), Entry(D8, "LD D, 0x%02x"), Entry(Simple, "RLA")]
  const BLOCK0_ROW3: seq<Entry> :=
    [Entry(R8, "JR %d"), Entry(Simple, "ADD HL, DE"), Entry(Simple, "LD A, (DE)"), Entry(Simple, "DEC DE"),
     Entry(Simple, "INC E"), Entry(Simple, "DEC E"), Entry(D8, "LD E, 0x%02x"), Entry(Simple, "RRA")]
  const BLOCK0_ROW4: seq<Entry> :=
    [Entry(R8, "JR NZ, %d"), Entry(D16, "LD HL, 0x%04x"), Entry(Simple, "LD (HL+), A"), Entry(Simple, "INC HL"),
     Entry(Simple, "INC H"), Entry(Simple, "DEC H"), Entry(D8, "LD H, 0x%02x"), Entry(Simple, "DAA")]
  const BLOCK0_ROW5: seq<Entry> :=
    [Entry(R8, "JR Z, %d"), Entry(Simple, "ADD HL, HL"), Entry(Simple, "LD A, (HL+)"), Entry(Simple, "DEC HL"),
     Entry(Simple, "INC L"), Entry(Simple, "DEC L"), Entry(D8, "LD L, 0x%02x"), Entry(Simple, "CPL")]
  const BLOCK0_ROW6: seq<Entry> :=
    [Entry(R8, "JR NC, %d"), Entry(D16, "LD SP, %0x%04x"), Entry(Simple, "LD (HL-), A"), Entry(Simple, "INC SP"),
     Entry(Simple, "INC (HL)"), Entry(Simple, "DEC (HL)"), Entry(D8, "LD (HL), 0x%02x"), Entry(Simple, "SCF")]
  const BLOCK0_ROW7: seq<Entry> :=
    [Entry(R8, "JR C, %d"), Entry(Simple, "ADD HL, SP"), Entry(Simple, "LD A, (HL-)"), Entry(Simple, "DEC SP"),
     Entry(Simple, "INC A"), Entry(Simple, "DEC A"), Entry(D8, "LD A, 0x%02x"), Entry(Simple, "CCF")]

  function Block0Row(y: nat): (row: seq<Entry>)
    requires y < 8
    ensures |row| == 8
  {
    if y == 0 then BLOCK0_ROW0 else if y == 1 then BLOCK0_ROW1 else if y == 2 then BLOCK0_ROW2
    else if y == 3 then BLOCK0_ROW3 else if y == 4 then BLOCK0_ROW4 else if y == 5 then BLOCK0_ROW5
    else if y == 6 then BLOCK0_ROW6 else BLOCK0_ROW7
  }

  /** Opcodes 0xC0-0xFF, as the switch lists them, in rows of eight; the opcodes without a case take the
   *  default "????". */
  const BLOCK3_ROW0: seq<Entry> :=
    [Entry(Simple, "RET NZ"), Entry(Simple, "POP BC"), Entry(A16, "JP NZ, 0x%04x"), Entry(A16, "JP 0x%04x"),
     Entry(A16, "CALL NZ, 0x%04x"), Entry(Simple, "PUSH BC"), Entry(D8, "ADD A, 0x%02x"), Entry(Simple, "RST 0x00")]
  const BLOCK3_ROW1: seq<Entry> :=
    [Entry(Simple, "RET Z"), Entry(Simple, "RET"), Entry(A16, "JP Z, 0x%04x"), Entry(Simple, "PREFIX CB"),
     Entry(A16, "CALL Z, 0x%04x"), Entry(A16, "CALL 0x%04x"), Entry(D8, "ADC A, 0x%02x"), Entry(Simple, "RST 0x08")]
  const BLOCK3_ROW2: seq<Entry> :=
    [Entry(Simple, "RET NC"), Entry(Simple, "POP DE"), Entry(A16, "JP NC, 0x%04x"), Entry(Simple, "????"),
     Entry(A16, "CALL NC, 0x%04x"), Entry(Simple, "PUSH DE"), Entry(D8, "SUB 0x%02x"), Entry(Simple, "RST 0x10")]
  const BLOCK3_ROW3: seq<Entry> :=
    [Entry(Simple, "REC C"), Entry(Simple, "RETI"), Entry(A16, "JP C, 0x%04x"), Entry(Simple, "????"),
     Entry(A16, "CALL C, 0x%04x"), Entry(Simple, "????"), Entry(D8, "SBC A, 0x%02x"), Entry(Simple, "RST 0x18")]
  const BLOCK3_ROW4: seq<Entry> :=
    [Entry(D8, "LD (0xFF%02x), A"), Entry(Simple, "POP HL"), Entry(Simple, "LD (0xFF00+C), A"), Entry(Simple, "????"),
     Entry(Simple, "????"), Entry(Simple, "PUSH HL"), Entry(D8, "AND 0x%02x"), Entry(Simple, "RST 0x20")]
  const BLOCK3_ROW5: seq<Entry> :=
    [Entry(R8, "ADD SP, %d"), Entry(Simple, "JP (HL)"), Entry(A16, "LD (0x%04x), A"), Entry(Simple, "????"),
     Entry(Simple, "????"), Entry(Simple, "????"), Entry(D8, "XOR 0x%02x"), Entry(Simple, "RST 0x28")]
  const BLOCK3_ROW6: seq<Entry> :=
    [Entry(D8, "LD A, (0xFF%02x)"), Entry(Simple, "POP AF"), Entry(Simple, "LD A, (0xFF00 + C)"), Entry(Simple, "DI"),
     Entry(Simple, "????"), Entry(Simple, "PUSH AF"), Entry(D8, "OR 0x%02x"), Entry(Simple, "RST 0x30")]
  const BLOCK3_ROW7: seq<Entry> :=
    [Entry(R8, "LD HL, SP+%d"), Entry(Simple, "LD SP, HL"), Entry(A16, "LD A, (0x%04x)"), Entry(Simple, "EI"),
     Entry(Simple, "????"), Entry(Simple, "????"), Entry(D8, "CP 0x%02x"), Entry(Simple, "RST 0x38")]

  function Block3Row(y: nat): (row: seq<Entry>)
    requires y < 8
    ensures |row| == 8
  {
    if y == 0 then BLOCK3_ROW0 else if y == 1 then BLOCK3_ROW1 else if y == 2 then BLOCK3_ROW2
    else if y == 3 then BLOCK3_ROW3 else if y == 4 then BLOCK3_ROW4 else if y == 5 then BLOCK3_ROW5
    else if y == 6 then BLOCK3_ROW6 else BLOCK3_ROW7
  }

  /** disassembleInstruction's switch. 0x40-0x7F (except HALT) and 0x80-0xBF are listed case by
   *  case in the source; every one of those cases is the LD or ALU text of its bit fields. */
  function BaseEntry(op: byte): Entry
  {
    var n := ByteNat(op);
    if n < 0x40 then Block0Row(n / 8 % 8)[n % 8]
    else if n < 0xC0 then MiddleEntry(n)
    else Block3Row(n / 8 % 8)[n % 8]
  }

  /** 0x40-0xBF: HALT, the LD r, r' block and the ALU block. */
  function MiddleEntry(n: nat): Entry
    requires 0x40 <= n < 0xC0
  {
    if n < 0x80 then
      (if n == 0x76 then Entry(Simple, "HALT")
       else Entry(Simple, "LD " + OperandName(OperandAt(n / 8 % 8)) + ", " + OperandName(OperandAt(n % 8))))
    else Entry(Simple, AluPrefix(AluOpAt(n / 8 % 8)) + OperandName(OperandAt(n % 8)))
  }

  /** disassembleCBInstruction's switch: the shifts below 0x40, then BIT, RES and SET with the
   *  bit number of bits 3-5; the operand is that of the low three bits. */
  function CbText(op: byte): string
  {
    var n := ByteNat(op);
    var o := OperandName(OperandAt(n % 8));
    if n < 0x40 then ShiftName(ShiftOpAt(n / 8)) + " " + o
    else BitPrefix(n / 64) + [Digit(n / 8 % 8)] + ", " + o
  }

  function BitPrefix(x: nat): string
  {
    if x == 1 then "BIT " else if x == 2 then "RES " else "SET "
  }

  function Digit(d: nat): (c: char)
    requires d < 10
  {
    ['0', '1', '2', '3', '4', '5', '6', '7', '8', '9'][d]
  }

  // ---------------------------------------------------------------------------------------
  // The operands, by decoded instruction

  /** The helper each decoded instruction's case calls: the d8, d16, a16 and r8 forms are those
   *  with an immediate byte, word, address or offset; every other instruction is printed as it is. */
  function InstrKind(i: Instr): Kind
  {
    match i
    case Load8Imm(_) => D8
    case AluImm(_) => D8
    case StoreHigh => D8
    case LoadHigh => D8
    case Load16Imm(_) => D16
    case StoreSP => A16
    case Jump => A16
    case JumpIf(_) => A16
    case Call => A16
    case CallIf(_) => A16
    case StoreAbs => A16
    case LoadAbs => A16
    case JumpRelative => R8
    case JumpRelativeIf(_) => R8
    case AddSP => R8
    case LoadHLSP => R8
    case _ => Simple
  }

  /** The operand length the disassembler shows is the one dispatch skips, except for STOP, whose
   *  second byte dispatch skips but the disassembler does not show, and PREFIX CB, whose second
   *  byte is disassembled on its own. */
  lemma InstrKindLength(i: Instr)
    ensures OperandLength(InstrKind(i)) == if i == Stop || i == PrefixCB then 0 else GbExec.OperandBytes(i)
  {
  }

  /** The CB text of each decoded CB instruction. */
  function CbInstrText(c: CbInstr): string
    requires !c.Shift? ==> c.n < 8
  {
    match c
    case Shift(s, o) => ShiftName(s) + " " + OperandName(o)
    case TestBit(k, o) => "BIT " + [Digit(k)] + ", " + OperandName(o)
    case ResetBit(k, o) => "RES " + [Digit(k)] + ", " + OperandName(o)
    case SetBit(k, o) => "SET " + [Digit(k)] + ", " + OperandName(o)
  }

  // ---------------------------------------------------------------------------------------
  // The disassembler agrees with the executor

  /** Every opcode's entry takes the operand its decoded instruction has, and the entry is the
   *  default "????" exactly when dispatch has no case for the opcode. */
  lemma DisassemblyMatchesDecode(op: byte)
    ensures BaseEntry(op).kind == InstrKind(Decode(op))
    ensures BaseEntry(op).format == "????" <==> Decode(op) == Unused
  {
    var n := ByteNat(op);
    if n < 0x40 {
      var y, z := LowOpcode(op);
      Block0Entries(y, z);
    } else if n >= 0xC0 {
      var y, z := HighOpcode(op);
      Block3Entries(y, z);
    } else {
      MiddleEntries(op);
    }
  }

  /** An opcode below 0x40 is the entry and the instruction of its row and column. */
  lemma LowOpcode(op: byte) returns (y: nat, z: nat)
    requires ByteNat(op) < 0x40
    ensures y < 8 && z < 8
    ensures BaseEntry(op) == Block0Row(y)[z] && Decode(op) == Block0(y, z)
  {
    var n := ByteNat(op);
    DigitsOf(n);
    y, z := n / 8 % 8, n % 8;
  }

  /** An opcode from 0xC0 is the entry and the instruction of its row and column. */
  lemma HighOpcode(op: byte) returns (y: nat, z: nat)
    requires 0xC0 <= ByteNat(op)
    ensures y < 8 && z < 8
    ensures BaseEntry(op) == Block3Row(y)[z] && Decode(op) == Block3(y, z)
  {
    var n := ByteNat(op);
    DigitsOf(n);
    y, z := n / 8 % 8, n % 8;
  }

  /** 0x40-0xBF: LD r, r', HALT and the ALU block, none with an operand or a "????". */
  lemma MiddleEntries(op: byte)
    requires 0x40 <= ByteNat(op) < 0xC0
    ensures BaseEntry(op).kind == Simple == InstrKind(Decode(op))
    ensures BaseEntry(op).format != "????" && Decode(op) != Unused
  {
    var n := ByteNat(op);
    var f := MiddleEntry(n).format;
    if n < 0x80 {
      assert f[0] == (if n == 0x76 then 'H' else 'L');
    } else {
      assert f[0] == AluPrefix(AluOpAt(n / 8 % 8))[0];
    }
  }

  lemma Block0Entries(y: nat, z: nat)
    requires y < 8 && z < 8
    ensures Block0Row(y)[z].kind == InstrKind(Block0(y, z))
    ensures Block0Row(y)[z].format == "????" <==> Block0(y, z) == Unused
  {
    if y == 0 {
      Block0Row0(z);
    } else if y == 1 {
      Block0Row1(z);
    } else if y == 2 {
      Block0Row2(z);
    } else if y == 3 {
      Block0Row3(z);
    } else if y == 4 {
      Block0Row4(z);
    } else if y == 5 {
      Block0Row5(z);
    } else if y == 6 {
      Block0Row6(z);
    } else {
      Block0Row7(z);
    }
  }

  lemma Block0Row0(z: nat)
    requires z < 8
    ensures BLOCK0_ROW0[z].kind == InstrKind(Block0(0, z))
    ensures BLOCK0_ROW0[z].format == "????" <==> Block0(0, z) == Unused
  {
    if z < 4 {
      if z < 2 { if z == 0 { } else { } } else { if z == 2 { } else { } }
    } else {
      if z < 6 { if z == 4 { } else { } } else { if z == 6 { } else { } }
    }
  }

  lemma Block0Row1(z: nat)
    requires z < 8
    ensures BLOCK0_ROW1[z].kind == InstrKind(Block0(1, z))
    ensures BLOCK0_ROW1[z].format == "????" <==> Block0(1, z) == Unused
  {
    if z < 4 {
      if z < 2 { if z == 0 { } else { } } else { if z == 2 { } else { } }
    } else {
      if z < 6 { if z == 4 { } else { } } else { if z == 6 { } else { } }
    }
  }

  lemma Block0Row2(z: nat)
    requires z < 8
    ensures BLOCK0_ROW2[z].kind == InstrKind(Block0(2, z))
    ensures BLOCK0_ROW2[z].format == "????" <==> Block0(2, z) == Unused
  {
    if z < 4 {
      if z < 2 { if z == 0 { } else { } } else { if z == 2 { } else { } }
    } else {
      if z < 6 { if z == 4 { } else { } } else { if z == 6 { } else { } }
    }
  }

  lemma Block0Row3(z: nat)
    requires z < 8
    ensures BLOCK0_ROW3[z].kind == InstrKind(Block0(3, z))
    ensures BLOCK0_ROW3[z].format == "????" <==> Block0(3, z) == Unused
  {
    if z < 4 {
      if z < 2 { if z == 0 { } else { } } else { if z == 2 { } else { } }
    } else {
      if z < 6 { if z == 4 { } else { } } else { if z == 6 { } else { } }
    }
  }

  lemma Block0Row4(z: nat)
    requires z < 8
    ensures BLOCK0_ROW4[z].kind == InstrKind(Block0(4, z))
    ensures BLOCK0_ROW4[z].format == "????" <==> Block0(4, z) == Unused
  {
    if z < 4 {
      if z < 2 { if z == 0 { } else { } } else { if z == 2 { } else { } }
    } else {
      if z < 6 { if z == 4 { } else { } } else { if z == 6 { } else { } }
    }
  }

  lemma Block0Row5(z: nat)
    requires z < 8
    ensures BLOCK0_ROW5[z].kind == InstrKind(Block0(5, z))
    ensures BLOCK0_ROW5[z].format == "????" <==> Block0(5, z) == Unused
  {
    if z < 4 {
      if z < 2 { if z == 0 { } else { } } else { if z == 2 { } else { } }
    } else {
      if z < 6 { if z == 4 { } else { } } else { if z == 6 { } else { } }
    }
  }

  lemma Block0Row6(z: nat)
    requires z < 8
    ensures BLOCK0_ROW6[z].kind == InstrKind(Block0(6, z))
    ensures BLOCK0_ROW6[z].format == "????" <==> Block0(6, z) == Unused
  {
    if z < 4 {
      if z < 2 { if z == 0 { } else { } } else { if z == 2 { } else { } }
    } else {
      if z < 6 { if z == 4 { } else { } } else { if z == 6 { } else { } }
    }
  }

  lemma Block0Row7(z: nat)
    requires z < 8
    ensures BLOCK0_ROW7[z].kind == InstrKind(Block0(7, z))
    ensures BLOCK0_ROW7[z].format == "????" <==> Block0(7, z) == Unused
  {
    if z < 4 {
      if z < 2 { if z == 0 { } else { } } else { if z == 2 { } else { } }
    } else {
      if z < 6 { if z == 4 { } else { } } else { if z == 6 { } else { } }
    }
  }

  lemma Block3Entries(y: nat, z: nat)
    requires y < 8 && z < 8
    ensures Block3Row(y)[z].kind == InstrKind(Block3(y, z))
    ensures Block3Row(y)[z].format == "????" <==> Block3(y, z) == Unused
  {
    if y == 0 {
      Block3Row0(z);
    } else if y == 1 {
      Block3Row1(z);
    } else if y == 2 {
      Block3Row2(z);
    } else if y == 3 {
      Block3Row3(z);
    } else if y == 4 {
      Block3Row4(z);
    } else if y == 5 {
      Block3Row5(z);
    } else if y == 6 {
      Block3Row6(z);
    } else {
      Block3Row7(z);
    }
  }

  lemma Block3Row0(z: nat)
    requires z < 8
    ensures BLOCK3_ROW0[z].kind == InstrKind(Block3(0, z))
    ensures BLOCK3_ROW0[z].format == "????" <==> Block3(0, z) == Unused
  {
    if z < 4 {
      if z < 2 { if z == 0 { } else { } } else { if z == 2 { } else { } }
    } else {
      if z < 6 { if z == 4 { } else { } } else { if z == 6 { } else { } }
    }
  }

  lemma Block3Row1(z: nat)
    requires z < 8
    ensures BLOCK3_ROW1[z].kind == InstrKind(Block3(1, z))
    ensures BLOCK3_ROW1[z].format == "????" <==> Block3(1, z) == Unused
  {
    if z < 4 {
      if z < 2 { if z == 0 { } else { } } else { if z == 2 { } else { } }
    } else {
      if z < 6 { if z == 4 { } else { } } else { if z == 6 { } else { } }
    }
  }

  lemma Block3Row2(z: nat)
    requires z < 8
    ensures BLOCK3_ROW2[z].kind == InstrKind(Block3(2, z))
    ensures BLOCK3_ROW2[z].format == "????" <==> Block3(2, z) == Unused
  {
    if z < 4 {
      if z < 2 { if z == 0 { } else { } } else { if z == 2 { } else { } }
    } else {
      if z < 6 { if z == 4 { } else { } } else { if z == 6 { } else { } }
    }
  }

  lemma Block3Row3(z: nat)
    requires z < 8
    ensures BLOCK3_ROW3[z].kind == InstrKind(Block3(3, z))
    ensures BLOCK3_ROW3[z].format == "????" <==> Block3(3, z) == Unused
  {
    if z < 4 {
      if z < 2 { if z == 0 { } else { } } else { if z == 2 { } else { } }
    } else {
      if z < 6 { if z == 4 { } else { } } else { if z == 6 { } else { } }
    }
  }

  lemma Block3Row4(z: nat)
    requires z < 8
    ensures BLOCK3_ROW4[z].kind == InstrKind(Block3(4, z))
    ensures BLOCK3_ROW4[z].format == "????" <==> Block3(4, z) == Unused
  {
    if z < 4 {
      if z < 2 { if z == 0 { } else { } } else { if z == 2 { } else { } }
    } else {
      if z < 6 { if z == 4 { } else { } } else { if z == 6 { } else { } }
    }
  }

  lemma Block3Row5(z: nat)
    requires z < 8
    ensures BLOCK3_ROW5[z].kind == InstrKind(Block3(5, z))
    ensures BLOCK3_ROW5[z].format == "????" <==> Block3(5, z) == Unused
  {
    if z < 4 {
      if z < 2 { if z == 0 { } else { } } else { if z == 2 { } else { } }
    } else {
      if z < 6 { if z == 4 { } else { } } else { if z == 6 { } else { } }
    }
  }

  lemma Block3Row6(z: nat)
    requires z < 8
    ensures BLOCK3_ROW6[z].kind == InstrKind(Block3(6, z))
    ensures BLOCK3_ROW6[z].format == "????" <==> Block3(6, z) == Unused
  {
    if z < 4 {
      if z < 2 { if z == 0 { } else { } } else { if z == 2 { } else { } }
    } else {
      if z < 6 { if z == 4 { } else { } } else { if z == 6 { } else { } }
    }
  }

  lemma Block3Row7(z: nat)
    requires z < 8
    ensures BLOCK3_ROW7[z].kind == InstrKind(Block3(7, z))
    ensures BLOCK3_ROW7[z].format == "????" <==> Block3(7, z) == Unused
  {
    if z < 4 {
      if z < 2 { if z == 0 { } else { } } else { if z == 2 { } else { } }
    } else {
      if z < 6 { if z == 4 { } else { } } else { if z == 6 { } else { } }
    }
  }

  /** read2Bytes, d8 and r8 read as many bytes after the opcode as dispatch skips over, save
   *  for STOP and PREFIX CB. */
  lemma OperandLengthMatchesDispatch(op: byte)
    ensures OperandLength(BaseEntry(op).kind) ==
              if Decode(op) == Stop || Decode(op) == PrefixCB then 0 else GbExec.OperandBytes(Decode(op))
  {
    DisassemblyMatchesDecode(op);
    InstrKindLength(Decode(op));
  }

  /** "????" is written for exactly the eleven opcodes without a case. */
  lemma UnknownExactlyUnused(op: byte)
    ensures BaseEntry(op).format == "????" <==> UnusedOpcode(ByteNat(op))
  {
    DisassemblyMatchesDecode(op);
    DecodeUnused(op);
  }

  /** Every CB byte is disassembled as the instruction prefixCB runs for it. */
  lemma CbTextMatchesDecode(op: byte)
    ensures CbText(op) == CbInstrText(DecodeCB(op))
  {
  }

  // ---------------------------------------------------------------------------------------
  // Reading the operands

  /** disassembleInstruction on the emulator, for the opcode op at pc (the C reads gb->PC): the
   *  helper of the opcode's entry reads its operand bytes with readAddr at PC+1 (and PC+2 for
   *  read2Bytes); PC itself is not moved. Away from the timer registers, whose reads sync the
   *  timer, the line is Render of the bytes the bus held. */
  method DisassembleInstruction(gb: GB, pc: word, op: byte) returns (line: Line)
    requires gb.Valid() && pc == gb.PC
    modifies gb.IO, gb`lastDIVSync, gb`lastTIMASync
    ensures gb.Valid()
    ensures BaseEntry(op).kind == Simple ==> line == Text(BaseEntry(op).format)
    ensures !TimerAddress(pc + 1) && !TimerAddress(pc + 2) ==>
              line == Render(BaseEntry(op), old(Peek(gb, pc + 1)), old(Peek(gb, pc + 2)))
  {
    var e := BaseEntry(op);
    ghost var p1, p2 := Peek(gb, pc + 1), Peek(gb, pc + 2);
    var b1, b2 := ReadOperandBytes(gb, pc, OperandLength(e.kind));
    line := Render(e, b1, b2);
    if !TimerAddress(pc + 1) && !TimerAddress(pc + 2) {
      RenderReadsOperands(e, b1, b2, p1, p2);
    }
  }

  /** Render looks only at the operand bytes the entry's kind reads. */
  lemma RenderReadsOperands(e: Entry, b1: byte, b2: byte, c1: byte, c2: byte)
    requires OperandLength(e.kind) >= 1 ==> b1 == c1
    requires OperandLength(e.kind) == 2 ==> b2 == c2
    ensures Render(e, b1, b2) == Render(e, c1, c2)
  {
  }

  /** The n operand bytes after the opcode at pc, read with readAddr; a byte not read is 0.
   *  readAddr syncs the timer first on a timer register and is a plain bus read elsewhere. */
  method ReadOperandBytes(gb: GB, pc: word, n: nat) returns (b1: byte, b2: byte)
    requires gb.Valid() && n <= 2
    modifies gb.IO, gb`lastDIVSync, gb`lastTIMASync
    ensures gb.Valid()
    ensures n == 0 ==> b1 == 0 && unchanged(gb.IO)
    ensures n < 2 ==> b2 == 0
    ensures n >= 1 && !TimerAddress(pc + 1) ==> b1 == old(Peek(gb, pc + 1))
    ensures n == 2 && !TimerAddress(pc + 1) && !TimerAddress(pc + 2) ==> b2 == old(Peek(gb, pc + 2))
  {
    b1, b2 := 0, 0;
    if n >= 1 {
      if TimerAddress(pc + 1) {
        b1 := GbCpu.ReadAddrValid(gb, pc + 1);
      } else {
        b1 := Peek(gb, pc + 1);
      }
      if n == 2 {
        if TimerAddress(pc + 2) {
          b2 := GbCpu.ReadAddrValid(gb, pc + 2);
        } else {
          b2 := Peek(gb, pc + 2);
        }
      }
    }
  }

  // ---------------------------------------------------------------------------------------
  // printFlags

  /** The digit %d prints for a one-bit value. */
  function Bit(on: bool): char
  {
    if on then '1' else '0'
  }

  /** printFlags: "[Z%d N%d H%d C%d]" with bits 7, 6, 5 and 4 of F. */
  function FlagsText(f: byte): (s: string)
    ensures |s| == 13
  {
    "[Z" + [Bit(f & 0x80 != 0)] + " N" + [Bit(f & 0x40 != 0)] + " H" + [Bit(f & 0x20 != 0)] +
    " C" + [Bit(f & 0x10 != 0)] + "]"
  }

  /** The flags a printed flag field shows. */
  function FlagsShown(s: string): byte
    requires |s| == 13
  {
    (if s[2] == '1' then 0x80 else 0) | (if s[5] == '1' then 0x40 else 0) |
    (if s[8] == '1' then 0x20 else 0) | (if s[11] == '1' then 0x10 else 0)
  }

  /** The printed field shows exactly the four flags of F; its low nibble is not printed. */
  lemma FlagsTextShowsFlags(f: byte)
    ensures FlagsShown(FlagsText(f)) == f & 0xF0
  {
    var s := FlagsText(f);
    assert s[2] == Bit(f & 0x80 != 0) && s[5] == Bit(f & 0x40 != 0);
    assert s[8] == Bit(f & 0x20 != 0) && s[11] == Bit(f & 0x10 != 0);
  }
}
