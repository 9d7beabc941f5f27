// The ARM tracer of gba/debugGBA.c: the mnemonic each handler of the disassembler table prints,
// the table itself (initDissembler), and the state line printStateARM prints before an opcode is
// dispatched. As in the Game Boy disassembler, a line is the format string handed to printf
// together with the value it formats; how printf renders %08x and %-7d is not modelled.

module GbaDebug {
  import opened Bits
  import opened GbaDecode
  import GbaState
  import GbDebug

  /** The opcode names the data-processing handlers print. */
  function DpName(o: DpOp): string
  {
    match o
    case AND => "AND" case EOR => "EOR" case SUB => "SUB" case RSB => "RSB"
    case ADD => "ADD" case ADC => "ADC" case SBC => "SBC" case RSC => "RSC"
    case TST => "TST" case TEQ => "TEQ" case CMP => "CMP" case CMN => "CMN"
    case ORR => "ORR" case MOV => "MOV" case BIC => "BIC" case MVN => "MVN"
  }

  /** What a data-processing handler prints: the name and " Rx" or " Imm", except that AND_Rx
   *  prints the bare name and CMN_Imm prints "CMN IMm". */
  function DpText(o: DpOp, immediate: bool): string
  {
    if o == AND && !immediate then "AND"
    else if o == CMN && immediate then "CMN IMm"
    else DpName(o) + (if immediate then " Imm" else " Rx")
  }

  /** The 24-bit offset field shifted left by two, as B adds it to R15: no sign extension. */
  function BranchOffset(ins: dword): (off: dword)
    ensures off < 0x0400_0000 && off & 3 == 0
  {
    (ins & 0xFF_FFFF) << 2
  }

  /** What the handler of the disassembler table prints for the instruction. */
  function Mnemonic(h: Handler, ins: dword): GbDebug.Line
  {
    match h
    case BX => GbDebug.Text("BX")
    case B => GbDebug.Formatted("B    %-7d", DwordNat(BranchOffset(ins)))
    case BL => GbDebug.Formatted("BL   %-7d", DwordNat(BranchOffset(ins)))
    case DataProcessing(o, imm) => GbDebug.Text(DpText(o, imm))
    case MRS => GbDebug.Text("MRS")
    case MSR => GbDebug.Text("MSR")
    case MUL => GbDebug.Text("MUL")
    case MLA => GbDebug.Text("MLA")
    case UMULL => GbDebug.Text("UMULL")
    case UMLAL => GbDebug.Text("UMLAL")
    case SMULL => GbDebug.Text("SMULL")
    case SMLAL => GbDebug.Text("SMLAL")
    case SingleTransfer(load, reg) =>
      GbDebug.Text((if load then "LDR" else "STR") + (if reg then " Rx" else " Imm"))
    case LDRH => GbDebug.Text("LDRH")
    case LDRSB => GbDebug.Text("LDRSB")
    case LDRSH => GbDebug.Text("LDRSH")
    case STRH => GbDebug.Text("STRH")
    case LDM => GbDebug.Text("LDM")
    case STM => GbDebug.Text("STM")
    case SWP => GbDebug.Text("SWP")
    case SWP_B => GbDebug.Text("SWPB")
    case SWI => GbDebug.Text("SWI")
    case Undefined => GbDebug.Text("Undefined")
    case Unimplemented => GbDebug.Text("Unimplemented")
  }

  /** B and BL print the offset B adds to R15 as a non-negative number below 2^26, whatever the
   *  sign bit of the 24-bit field. */
  lemma BranchTextShowsOffset(ins: dword)
    ensures Mnemonic(B, ins).Formatted? && Mnemonic(BL, ins).Formatted?
    ensures Mnemonic(B, ins).value == Mnemonic(BL, ins).value == DwordNat(BranchOffset(ins))
    ensures 0 <= Mnemonic(B, ins).value < 0x0400_0000
    ensures (ins >> 23) & 1 == 1 ==> Mnemonic(B, ins).value >= 0x0200_0000
  {
  }

  /** The text of a data-processing handler names its opcode: the first three characters are the
   *  opcode's name, and the rest tells Rx and Imm apart. */
  lemma DpTextNamesHandler(o: DpOp, immediate: bool)
    ensures |DpText(o, immediate)| >= 3 && DpText(o, immediate)[..3] == DpName(o)
    ensures immediate <==> |DpText(o, immediate)| == 7
  {
  }

  /** Distinct data-processing opcodes have distinct names. */
  lemma DpNamesDistinct(a: DpOp, b: DpOp)
    requires a != b
    ensures DpName(a) != DpName(b)
  {
    match a
    case AND => assert DpName(a)[0] == 'A' && DpName(a)[1] == 'N';
    case EOR => assert DpName(a)[0] == 'E';
    case SUB => assert DpName(a)[0] == 'S' && DpName(a)[1] == 'U';
    case RSB => assert DpName(a)[0] == 'R' && DpName(a)[2] == 'B';
    case ADD => assert DpName(a)[0] == 'A' && DpName(a)[1] == 'D' && DpName(a)[2] == 'D';
    case ADC => assert DpName(a)[0] == 'A' && DpName(a)[1] == 'D' && DpName(a)[2] == 'C';
    case SBC => assert DpName(a)[0] == 'S' && DpName(a)[1] == 'B';
    case RSC => assert DpName(a)[0] == 'R' && DpName(a)[2] == 'C';
    case TST => assert DpName(a)[0] == 'T' && DpName(a)[1] == 'S';
    case TEQ => assert DpName(a)[0] == 'T' && DpName(a)[1] == 'E';
    case CMP => assert DpName(a)[0] == 'C' && DpName(a)[2] == 'P';
    case CMN => assert DpName(a)[0] == 'C' && DpName(a)[2] == 'N';
    case ORR => assert DpName(a)[0] == 'O';
    case MOV => assert DpName(a)[0] == 'M' && DpName(a)[1] == 'O';
    case BIC => assert DpName(a)[0] == 'B';
    case MVN => assert DpName(a)[0] == 'M' && DpName(a)[1] == 'V';
  }

  /** The digit %d prints for a CPSR bit. */
  function Digit(cpsr: dword, bit: dword): char
    requires bit < 32
  {
    if (cpsr >> bit) & 1 == 1 then '1' else '0'
  }

  /** The flag field of printStateARM: bits 31, 30, 29 and 28 of the CPSR (N, Z, C, V) labelled
   *  N, S, C and V. */
  function FlagsText(cpsr: dword): (s: string)
    ensures |s| == 11
  {
    "[N" + [Digit(cpsr, 31)] + "S" + [Digit(cpsr, 30)] + "C" + [Digit(cpsr, 29)] + "V" +
    [Digit(cpsr, 28)] + "] "
  }

  /** The flags a printed flag field shows, as CPSR bits. */
  function FlagsShown(s: string): dword
    requires |s| == 11
  {
    (if s[2] == '1' then 0x8000_0000 else 0) | (if s[4] == '1' then 0x4000_0000 else 0) |
    (if s[6] == '1' then 0x2000_0000 else 0) | (if s[8] == '1' then 0x1000_0000 else 0)
  }

  /** The printed field shows exactly the four condition flags; no other CPSR bit is printed. */
  lemma FlagsTextShowsFlags(cpsr: dword)
    ensures FlagsShown(FlagsText(cpsr)) == cpsr & 0xF000_0000
  {
    var s := FlagsText(cpsr);
    assert s[2] == Digit(cpsr, 31) && s[4] == Digit(cpsr, 30);
    assert s[6] == Digit(cpsr, 29) && s[8] == Digit(cpsr, 28);
  }

  /** One line of printStateARM: "[A][%08x]" with R15 - 8, the flag field, then the mnemonic
   *  the table entry of the opcode prints. */
  datatype StateLine = StateLine(address: GbDebug.Line, flags: string, text: GbDebug.Line)

  /** The global Dissembler_ARM_LUT. */
  class Disassembler {
    const table: array<Handler>

    /** The table before initDissembler runs. */
    constructor ()
      ensures table.Length == 0x1000 && fresh(table)
    {
      table := new Handler[0x1000](_ => Unimplemented);
    }
  }

  /** initDissembler: the same ordered tests as initialiseLUT_ARM. */
  method InitDissembler(dis: Disassembler)
    requires dis.table.Length == 0x1000
    modifies dis.table
    ensures Filled(dis.table)
  {
    FillTable(dis.table);
  }

  /** printStateARM for the opcode about to be dispatched, given R15 and the CPSR. */
  function PrintState(dis: Disassembler, r15: dword, cpsr: dword, opcode: dword): (l: StateLine)
    requires Filled(dis.table)
    reads dis.table
    ensures l.address == GbDebug.Formatted("[A][%08x]", DwordNat(r15 - 8))
    ensures l.flags == FlagsText(cpsr)
    ensures l.text == Mnemonic(Classify(LutIndex(opcode)), opcode)
  {
    StateLine(GbDebug.Formatted("[A][%08x]", DwordNat(r15 - 8)), FlagsText(cpsr),
              Mnemonic(dis.table[DwordNat(LutIndex(opcode))], opcode))
  }
}
