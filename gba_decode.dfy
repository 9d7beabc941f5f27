// The ARM decode table of gba/arm7tdmi.c (initialiseLUT_ARM, dispatchARM): a 12-bit index built
// from opcode bits 27-20 and 7-4 selects the handler, and the table is filled by testing the
// index against the encodings' fixed bits in a fixed order, first match wins. gba/debugGBA.c
// (initDissembler) fills its mnemonic table with the same tests in the same order.

module GbaDecode {
  import opened Bits

  /** The sixteen data-processing opcodes, in the order of opcode bits 24-21. */
  datatype DpOp = AND | EOR | SUB | RSB | ADD | ADC | SBC | RSC | TST | TEQ | CMP | CMN | ORR | MOV | BIC | MVN

  /** The data-processing opcode numbered n (bits 24-21 of the instruction). */
  function DpOpOf(n: dword): (o: DpOp)
    requires n < 16
    ensures DpOpNumber(o) == n
  {
    [AND, EOR, SUB, RSB, ADD, ADC, SBC, RSC, TST, TEQ, CMP, CMN, ORR, MOV, BIC, MVN][n as nat]
  }

  /** The opcode number of a data-processing opcode. */
  function DpOpNumber(o: DpOp): dword
  {
    match o
    case AND => 0 case EOR => 1 case SUB => 2 case RSB => 3
    case ADD => 4 case ADC => 5 case SBC => 6 case RSC => 7
    case TST => 8 case TEQ => 9 case CMP => 10 case CMN => 11
    case ORR => 12 case MOV => 13 case BIC => 14 case MVN => 15
  }

  /** The handlers a table slot can point to. DataProcessing stands for the 32 handlers AND_Rx,
   *  AND_Imm, ..., MVN_Imm; SingleTransfer for LDR_Rx, LDR_Imm, STR_Rx and STR_Imm. */
  datatype Handler =
    | BX | B | BL
    | DataProcessing(op: DpOp, immediate: bool)
    | MRS | MSR
    | MUL | MLA | UMULL | UMLAL | SMULL | SMLAL
    | SingleTransfer(load: bool, registerOffset: bool)
    | LDRH | LDRSB | LDRSH | STRH
    | LDM | STM
    | SWP | SWP_B
    | SWI | Undefined | Unimplemented

  /** A slot of the table after initialiseLUT_ARM: a handler, or nothing when no branch of the
   *  loop body assigns the slot. */
  datatype Slot = Assigned(h: Handler) | Unassigned

  /** The table index of an opcode, as dispatchARM computes it: bits 27-20 above bits 7-4. */
  function LutIndex(op: dword): (i: dword)
    ensures i < 0x1000
    ensures i >> 4 == (op >> 20) & 0xFF && i & 0xF == (op >> 4) & 0xF
  {
    ((op & 0x0FF0_0000) >> 16) | ((op >> 4) & 0xF)
  }

  /** One step of the loop of initialiseLUT_ARM: the slot for an index, exactly as the tests of
   *  the loop body assign it. */
  function ClassifyAsWritten(index: dword): Slot
    requires index < 0x1000
  {
    if index & 0xFFF == 0x121 then Assigned(BX)
    else if index & 0xFBF == 0x109 then Assigned(if (index >> 6) & 1 == 1 then SWP_B else SWP)
    else if index & 0xFCF == 0x009 then Assigned(if (index >> 5) & 1 == 1 then MLA else MUL)
    else if index & 0xF8F == 0x089 then
      Assigned(
        if (index >> 6) & 1 == 1 then (if (index >> 5) & 1 == 1 then SMLAL else SMULL)
        else (if (index >> 5) & 1 == 1 then UMLAL else UMULL))
    else if index & 0xFB0 == 0x100 then Assigned(MRS)
    else if index & 0xDB0 == 0x120 then Assigned(MSR)
    else if index & 0xE09 == 0x009 then
      if (index >> 4) & 1 == 1 then
        (var sh := (index >> 1) & 3;
         if sh == 1 then Assigned(LDRH) else if sh == 2 then Assigned(LDRSB)
         else if sh == 3 then Assigned(LDRSH) else Unassigned)
      else Assigned(STRH)
    else if index & 0xF00 == 0xF00 then Assigned(SWI)
    else if index & 0xE01 == 0x601 then Assigned(Undefined)
    else if index & 0xE00 == 0xA00 then Assigned(if (index >> 8) & 1 == 1 then BL else B)
    else if index & 0xE00 == 0x800 then Assigned(if (index >> 4) & 1 == 1 then LDM else STM)
    else if index & 0xC00 == 0x400 then Assigned(SingleTransfer((index >> 4) & 1 == 1, (index >> 9) & 1 == 1))
    else if index & 0xC00 == 0 then Assigned(DataProcessing(DpOpOf((index >> 5) & 0xF), (index >> 9) & 1 == 1))
    else Assigned(Unimplemented)
  }

  /** The slots the loop leaves unassigned: a halfword transfer index with L set and SH = 00 that
   *  is neither a multiply nor a long multiply. The source's comment says SH = 00 cannot reach
   *  this branch; it can, at these ten indices. */
  lemma UnassignedExactly(index: dword)
    requires index < 0x1000
    ensures ClassifyAsWritten(index) == Unassigned <==>
              index & 0xE1F == 0x019 && index & 0x1C0 != 0 && index & 0x180 != 0x080
  {
  }

  /** An opcode that reaches an unassigned slot: 0xE1100090 (condition AL), index 0x119. */
  lemma UnassignedCounterexample()
    ensures LutIndex(0xE110_0090) == 0x119
    ensures ClassifyAsWritten(0x119) == Unassigned
  {
  }

  /** The table with every slot assigned: a slot the loop leaves unassigned falls back to
   *  Unimplemented, the handler for every other index no encoding claims. */
  function Classify(index: dword): (h: Handler)
    requires index < 0x1000
    ensures ClassifyAsWritten(index).Assigned? ==> h == ClassifyAsWritten(index).h
    ensures ClassifyAsWritten(index) == Unassigned ==> h == Unimplemented
  {
    match ClassifyAsWritten(index)
    case Assigned(h) => h
    case Unassigned => Unimplemented
  }

  /** Bits 27-25 = 101 select B/BL, with bit 24 (the L bit) choosing BL; no earlier test claims
   *  such an index. */
  lemma BranchExactly(op: dword)
    ensures Classify(LutIndex(op)) == B <==> (op >> 25) & 7 == 5 && (op >> 24) & 1 == 0
    ensures Classify(LutIndex(op)) == BL <==> (op >> 25) & 7 == 5 && (op >> 24) & 1 == 1
  {
  }

  /** Bits 27-24 = 1111 select SWI. */
  lemma SoftwareInterruptExactly(op: dword)
    ensures Classify(LutIndex(op)) == SWI <==> (op >> 24) & 0xF == 0xF
  {
  }

  /** Bits 27-25 = 100 select LDM/STM, bit 20 (L) choosing LDM. */
  lemma BlockTransferExactly(op: dword)
    ensures Classify(LutIndex(op)) == LDM <==> (op >> 25) & 7 == 4 && (op >> 20) & 1 == 1
    ensures Classify(LutIndex(op)) == STM <==> (op >> 25) & 7 == 4 && (op >> 20) & 1 == 0
  {
  }

  /** Bits 27-25 = 011 with bit 4 set are the undefined instructions; the rest of bits 27-26 = 01
   *  is a single data transfer, bit 20 (L) choosing load and bit 25 (I) a register offset. */
  lemma SingleTransferExactly(op: dword)
    ensures Classify(LutIndex(op)) == Undefined <==> (op >> 25) & 7 == 3 && (op >> 4) & 1 == 1
    ensures Classify(LutIndex(op)).SingleTransfer? <==>
              (op >> 26) & 3 == 1 && !((op >> 25) & 7 == 3 && (op >> 4) & 1 == 1)
    ensures Classify(LutIndex(op)).SingleTransfer? ==>
              Classify(LutIndex(op)).load == ((op >> 20) & 1 == 1) &&
              Classify(LutIndex(op)).registerOffset == ((op >> 25) & 1 == 1)
  {
  }

  /** Bits 27-26 = 11 other than SWI (the coprocessor space) are Unimplemented. */
  lemma CoprocessorUnimplemented(op: dword)
    requires (op >> 26) & 3 == 3 && (op >> 24) & 0xF != 0xF
    ensures Classify(LutIndex(op)) == Unimplemented
  {
  }

  /** A data-processing handler is chosen only with bits 27-26 = 00, and then names the opcode in
   *  bits 24-21 and the I bit 25. */
  lemma DataProcessingFields(op: dword)
    requires Classify(LutIndex(op)).DataProcessing?
    ensures (op >> 26) & 3 == 0
    ensures DpOpNumber(Classify(LutIndex(op)).op) == (op >> 21) & 0xF
    ensures Classify(LutIndex(op)).immediate == ((op >> 25) & 1 == 1)
  {
  }

  /** With bits 27-26 = 00, bits 7 and 4 not both set (no multiply, swap or halfword transfer) and
   *  bits 7-4 not 0001 (no BX), only MRS and MSR can take the index away from data processing. */
  lemma DataProcessingOtherwise(op: dword)
    requires (op >> 26) & 3 == 0
    requires (op >> 4) & 9 != 9 && (op >> 4) & 0xF != 1
    requires Classify(LutIndex(op)) != MRS && Classify(LutIndex(op)) != MSR
    ensures Classify(LutIndex(op)).DataProcessing?
  {
  }

  /** A table every slot of which holds the handler of its index. */
  ghost predicate Filled(t: array<Handler>)
    reads t
  {
    t.Length == 0x1000 && forall i :: 0 <= i < 0x1000 ==> t[i] == Classify(i as dword)
  }

  /** The loop of initialiseLUT_ARM, and of initDissembler over its own table: every one of the
   *  4096 slots gets the handler of its index. */
  method FillTable(t: array<Handler>)
    requires t.Length == 0x1000
    modifies t
    ensures Filled(t)
  {
    for i := 0 to 0x1000
      invariant forall j :: 0 <= j < i ==> t[j] == Classify(j as dword)
    {
      t[i] := Classify(i as dword);
    }
  }
}
