// The ARM7TDMI core of gba/arm7tdmi.c on the emulator state: switchMode on the register arrays,
// the three-entry prefetch queue (insertPipeline, readPipeline, readARMOpcode,
// flushRefillPipeline), dispatchARM with its condition test and the two branch handlers that do
// something, stepCPU with the state trace of gba/debugGBA.c, and initialiseCPU. The loop of
// startGBAEmulator (gba/gba.c) is the Run method below.

module GbaCpu {
  import opened Bits
  import opened GbaDecode
  import opened GbaState
  import opened GbaShifter
  import GbaBanks
  import GbaBus
  import GbaDebug
  import GbDebug

  // ---------------------------------------------------------------------------------------
  // Branch targets

  /** Where B leaves R15 as written: the offset is the 24-bit field shifted left by two, and the
   *  cast to int32_t does not sign-extend it. */
  function BranchTargetAsWritten(r15: dword, ins: dword): dword
  {
    After(r15, GbaDebug.BranchOffset(ins))
  }

  /** Where BL leaves R15 as written: it computes the offset and never adds it. */
  function LinkTargetAsWritten(r15: dword, ins: dword): dword
  {
    r15
  }

  /** The branch displacement of the ARM architecture: the 24-bit field shifted left by two and
   *  sign-extended from bit 25. */
  function BranchDisplacement(ins: dword): (d: dword)
    ensures d & 3 == 0 && (d >> 2) & 0xFF_FFFF == ins & 0xFF_FFFF
    ensures d >> 25 == (if (ins >> 23) & 1 == 1 then 0x7F else 0)
  {
    if (ins >> 23) & 1 == 1 then ((ins & 0xFF_FFFF) << 2) | 0xFC00_0000 else (ins & 0xFF_FFFF) << 2
  }

  /** The sign extension is all the difference: a forward branch moves R15 by the offset the
   *  source adds, a backward one by 64 MiB less. */
  lemma BranchDisplacementAgrees(ins: dword)
    ensures (ins >> 23) & 1 == 0 ==> BranchDisplacement(ins) == GbaDebug.BranchOffset(ins)
    ensures (ins >> 23) & 1 == 1 ==> BranchDisplacement(ins) == GbaDebug.BranchOffset(ins) - 0x0400_0000
  {
  }

  /** `B .` (0xEAFFFFFE), a branch to itself: R15 is the instruction's address plus 8, so the
   *  target is R15 - 8; as written B jumps 64 MiB - 8 forward instead. */
  lemma BranchToSelfCounterexample(r15: dword)
    ensures BranchTargetAsWritten(r15, 0xEAFF_FFFE) == r15 + 0x03FF_FFF8
    ensures r15 + BranchDisplacement(0xEAFF_FFFE) == r15 - 8
  {
  }

  /** BL 0xEB000002 leaves R15 where it was instead of 8 bytes on. */
  lemma LinkCounterexample(r15: dword)
    ensures LinkTargetAsWritten(r15, 0xEB00_0002) == r15
    ensures r15 + BranchDisplacement(0xEB00_0002) == r15 + 8
  {
  }

  // ---------------------------------------------------------------------------------------
  // switchMode on the register arrays

  /** The register file, REG_SWAP, the banks and the SPSR of the emulator, as values. */
  function RegsOf(gba: Gba): GbaBanks.Regs
    reads gba.REG, gba.REG_SWAP, gba.BANK_FIQ, gba.BANK_SVC, gba.BANK_ABT, gba.BANK_IRQ
    reads gba.BANK_UND, gba.BANK_SPSR, gba`SPSR
  {
    GbaBanks.Regs(gba.REG[..], gba.REG_SWAP[..], gba.BANK_FIQ[..], gba.BANK_SVC[..], gba.BANK_ABT[..],
                  gba.BANK_IRQ[..], gba.BANK_UND[..], gba.BANK_SPSR[..], gba.SPSR)
  }

  /** The banked state together with the CPSR and cpu_mode. */
  function Banks(gba: Gba): GbaBanks.Banked
    reads gba.REG, gba.REG_SWAP, gba.BANK_FIQ, gba.BANK_SVC, gba.BANK_ABT, gba.BANK_IRQ
    reads gba.BANK_UND, gba.BANK_SPSR, gba`SPSR, gba`CPSR, gba`cpuMode
  {
    GbaBanks.Banked(RegsOf(gba), gba.CPSR, gba.cpuMode)
  }

  /** memcpy of the values src to position at of dst. */
  method CopyInto(dst: array<dword>, at: nat, src: seq<dword>)
    requires at + |src| <= dst.Length
    modifies dst
    ensures dst[..] == GbaBanks.Splice(old(dst[..]), at, src)
  {
    ghost var before := dst[..];
    for k := 0 to |src|
      invariant forall i :: 0 <= i < dst.Length ==>
                  dst[i] == (if at <= i < at + k then src[i - at] else before[i])
    {
      dst[at + k] := src[k];
    }
  }

  /** The User/System case of the first switch of switchMode. */
  method SaveUnprivileged(gba: Gba)
    requires gba.Valid()
    modifies gba.REG_SWAP
    ensures RegsOf(gba) == GbaBanks.SaveUnprivileged(old(RegsOf(gba)))
  {
    CopyInto(gba.REG_SWAP, 5, gba.REG[R13..R15]);
  }

  /** The FIQ case of the first switch, and the SPSR saved after it. */
  method SaveFiq(gba: Gba)
    requires gba.Valid()
    modifies gba.BANK_FIQ, gba.REG, gba.BANK_SPSR
    ensures RegsOf(gba) == GbaBanks.SaveFiq(old(RegsOf(gba)))
  {
    ghost var r := RegsOf(gba);
    CopyInto(gba.BANK_FIQ, 0, gba.REG[8..R15]);
    assert gba.BANK_FIQ[..] == r.reg[8..15];
    CopyInto(gba.REG, 8, gba.REG_SWAP[..5]);
    gba.BANK_SPSR[SpsrSlot(Fiq)] := gba.SPSR;
  }

  /** The IRQ, SVC, ABT and UND cases of the first switch, and the SPSR saved after it. */
  method SaveBanked(gba: Gba, m: Mode)
    requires gba.Valid() && !Unprivileged(m) && m != Fiq
    modifies gba.BANK_SVC, gba.BANK_ABT, gba.BANK_IRQ, gba.BANK_UND, gba.BANK_SPSR
    ensures RegsOf(gba) == GbaBanks.SaveBanked(old(RegsOf(gba)), m)
  {
    var top := gba.REG[R13..R15];
    match m {
      case Irq => CopyInto(gba.BANK_IRQ, 0, top); assert gba.BANK_IRQ[..] == top;
      case Svc => CopyInto(gba.BANK_SVC, 0, top); assert gba.BANK_SVC[..] == top;
      case Abt => CopyInto(gba.BANK_ABT, 0, top); assert gba.BANK_ABT[..] == top;
      case Und => CopyInto(gba.BANK_UND, 0, top); assert gba.BANK_UND[..] == top;
    }
    gba.BANK_SPSR[SpsrSlot(m)] := gba.SPSR;
  }

  /** The User/System case of the second switch of switchMode, and the SPSR set after it. */
  method LoadUnprivileged(gba: Gba)
    requires gba.Valid()
    modifies gba.REG, gba`SPSR
    ensures RegsOf(gba) == GbaBanks.LoadUnprivileged(old(RegsOf(gba)))
  {
    CopyInto(gba.REG, R13, gba.REG_SWAP[5..7]);
    gba.SPSR := 0xFFFF_FFFF;
  }

  /** The FIQ case of the second switch, and the SPSR loaded after it. */
  method LoadFiq(gba: Gba)
    requires gba.Valid()
    modifies gba.REG_SWAP, gba.REG, gba`SPSR
    ensures RegsOf(gba) == GbaBanks.LoadFiq(old(RegsOf(gba)))
  {
    CopyInto(gba.REG_SWAP, 0, gba.REG[8..13]);
    CopyInto(gba.REG, 8, gba.BANK_FIQ[..]);
    gba.SPSR := gba.BANK_SPSR[SpsrSlot(Fiq)];
  }

  /** The IRQ, SVC, ABT and UND cases of the second switch, and the SPSR loaded after it. */
  method LoadBanked(gba: Gba, m: Mode)
    requires gba.Valid() && !Unprivileged(m) && m != Fiq
    modifies gba.REG, gba`SPSR
    ensures RegsOf(gba) == GbaBanks.LoadBanked(old(RegsOf(gba)), m)
  {
    var bank := match m
      case Irq => gba.BANK_IRQ[..]
      case Svc => gba.BANK_SVC[..]
      case Abt => gba.BANK_ABT[..]
      case Und => gba.BANK_UND[..];
    CopyInto(gba.REG, R13, bank);
    gba.SPSR := gba.BANK_SPSR[SpsrSlot(m)];
  }

  /** The first switch of switchMode and the SPSR save after it. */
  method Save(gba: Gba, from: Mode)
    requires gba.Valid()
    modifies gba.REG, gba.REG_SWAP, gba.BANK_FIQ, gba.BANK_SVC, gba.BANK_ABT, gba.BANK_IRQ
    modifies gba.BANK_UND, gba.BANK_SPSR
    ensures RegsOf(gba) == GbaBanks.Save(old(RegsOf(gba)), from)
  {
    if Unprivileged(from) {
      SaveUnprivileged(gba);
    } else if from == Fiq {
      SaveFiq(gba);
    } else {
      SaveBanked(gba, from);
    }
  }

  /** The second switch of switchMode and the SPSR load after it. */
  method Load(gba: Gba, to: Mode)
    requires gba.Valid()
    modifies gba.REG, gba.REG_SWAP, gba`SPSR
    ensures RegsOf(gba) == GbaBanks.Load(old(RegsOf(gba)), to)
  {
    if Unprivileged(to) {
      LoadUnprivileged(gba);
    } else if to == Fiq {
      LoadFiq(gba);
    } else {
      LoadBanked(gba, to);
    }
  }

  /** The two switches of switchMode between modes with different registers. */
  method Rebank(gba: Gba, from: Mode, to: Mode)
    requires gba.Valid()
    modifies gba.REG, gba.REG_SWAP, gba.BANK_FIQ, gba.BANK_SVC, gba.BANK_ABT, gba.BANK_IRQ
    modifies gba.BANK_UND, gba.BANK_SPSR, gba`SPSR
    ensures RegsOf(gba) == GbaBanks.Rebank(old(RegsOf(gba)), from, to)
  {
    Save(gba, from);
    Load(gba, to);
  }

  /** CPSR_SetMode followed by the write of cpu_mode. */
  method EnterMode(gba: Gba, m: Mode)
    modifies gba`CPSR, gba`cpuMode
    ensures gba.CPSR == SetMode(old(gba.CPSR), m) && gba.cpuMode == m
  {
    gba.CPSR := SetMode(gba.CPSR, m);
    gba.cpuMode := m;
  }

  /** switchMode: the banked state afterwards is the value-level switch of the one before. */
  method SwitchMode(gba: Gba, m: Mode)
    requires gba.Valid()
    modifies gba.REG, gba.REG_SWAP, gba.BANK_FIQ, gba.BANK_SVC, gba.BANK_ABT, gba.BANK_IRQ
    modifies gba.BANK_UND, gba.BANK_SPSR, gba`SPSR, gba`CPSR, gba`cpuMode
    ensures Banks(gba) == GbaBanks.SwitchMode(old(Banks(gba)), m)
  {
    var current := gba.cpuMode;
    if current == m {
      return;
    }
    if Unprivileged(current) && Unprivileged(m) {
      EnterMode(gba, m);
      return;
    }
    Rebank(gba, current, m);
    EnterMode(gba, m);
  }

  // ---------------------------------------------------------------------------------------
  // The prefetch queue

  /** The address n bytes after a, wrapping round at 2^32. */
  function After(a: dword, n: dword): dword
  {
    a + n
  }

  /** busRead32: the 32-bit word the bus returns for an address. */
  function Fetch(gba: Gba, a: dword): dword
    reads gba.IWRAM
  {
    GbaBus.Read(gba, a, GbaBus.Width32)
  }

  /** The queue positions lie in the three-entry queue, as the % 3 after each step keeps them. */
  predicate Indexed(gba: Gba)
    reads gba`pipelineInsertPoint, gba`pipelineReadPoint
  {
    gba.pipelineInsertPoint < 3 && gba.pipelineReadPoint < 3
  }

  /** The position after i in the three-entry queue: i + 1, wrapping from 2 to 0. */
  function Following(i: nat): (j: nat)
    requires i < 3
    ensures j < 3
  {
    if i == 2 then 0 else i + 1
  }

  /** insertPipeline: the opcode goes to the insert point, which moves on cyclically. */
  method InsertPipeline(gba: Gba, opcode: dword)
    requires gba.Valid() && gba.pipelineInsertPoint < 3
    modifies gba.pipeline, gba`pipelineInsertPoint
    ensures gba.pipeline[..] == old(gba.pipeline[..])[old(gba.pipelineInsertPoint) := opcode]
    ensures gba.pipelineInsertPoint == Following(old(gba.pipelineInsertPoint))
  {
    gba.pipeline[gba.pipelineInsertPoint] := opcode;
    gba.pipelineInsertPoint := (gba.pipelineInsertPoint + 1) % 3;
  }

  /** readPipeline: the opcode at the read point, which moves on cyclically. */
  method ReadPipeline(gba: Gba) returns (code: dword)
    requires gba.Valid() && gba.pipelineReadPoint < 3
    modifies gba`pipelineReadPoint
    ensures code == gba.pipeline[old(gba.pipelineReadPoint)]
    ensures gba.pipelineReadPoint == Following(old(gba.pipelineReadPoint))
  {
    code := gba.pipeline[gba.pipelineReadPoint];
    gba.pipelineReadPoint := (gba.pipelineReadPoint + 1) % 3;
  }

  /** readARMOpcode: the word at R15, and R15 moves on by four. */
  method ReadArmOpcode(gba: Gba) returns (opcode: dword)
    requires gba.Valid()
    modifies gba.REG
    ensures opcode == Fetch(gba, old(gba.REG[R15]))
    ensures gba.REG[..] == old(gba.REG[..])[R15 := After(old(gba.REG[R15]), 4)]
  {
    opcode := Fetch(gba, gba.REG[R15]);
    gba.REG[R15] := After(gba.REG[R15], 4);
  }

  /** The queue right after flushRefillPipeline in ARM state for a branch to target: the words at
   *  target and target + 4 are queued, R15 is target + 8, the next fetch is skipped. */
  ghost predicate Refilled(gba: Gba, target: dword)
    reads gba.pipeline, gba.REG, gba.IWRAM, gba`pipelineInsertPoint, gba`pipelineReadPoint
    reads gba`skipFetch
    requires gba.Valid()
  {
    gba.pipelineReadPoint == 0 && gba.pipelineInsertPoint == 2 && gba.skipFetch &&
    gba.REG[R15] == After(target, 8) &&
    gba.pipeline[0] == Fetch(gba, target) && gba.pipeline[1] == Fetch(gba, After(target, 4))
  }

  /** flushRefillPipeline: both positions go back to 0 and two opcodes are queued, fetched from
   *  R15 in ARM state and 0 (readTHUMBOpcode) in THUMB state; the next fetch is skipped. */
  method FlushRefill(gba: Gba)
    requires gba.Valid()
    modifies gba.REG, gba.pipeline, gba`pipelineInsertPoint, gba`pipelineReadPoint, gba`skipFetch
    ensures gba.cpuState == ArmState ==>
              Refilled(gba, old(gba.REG[R15])) &&
              gba.REG[..] == old(gba.REG[..])[R15 := After(old(gba.REG[R15]), 8)]
    ensures gba.cpuState == ThumbState ==>
              gba.REG[..] == old(gba.REG[..]) && gba.pipeline[..] == [0, 0, old(gba.pipeline[2])] &&
              gba.pipelineReadPoint == 0 && gba.pipelineInsertPoint == 2 && gba.skipFetch
  {
    if gba.cpuState == ArmState {
      FlushArm(gba, gba.REG[R15]);
    } else {
      FlushThumb(gba);
    }
  }

  /** flushRefillPipeline in ARM state. */
  method FlushArm(gba: Gba, ghost pc: dword)
    requires gba.Valid() && pc == gba.REG[R15]
    modifies gba.REG, gba.pipeline, gba`pipelineInsertPoint, gba`pipelineReadPoint, gba`skipFetch
    ensures Refilled(gba, pc) && gba.REG[..] == old(gba.REG[..])[R15 := After(pc, 8)]
  {
    ResetQueue(gba);
    RefillArm(gba, pc);
    SkipNextFetch(gba);
    assert gba.REG[R15] == After(pc, 8);
  }

  /** flushRefillPipeline in THUMB state. */
  method FlushThumb(gba: Gba)
    requires gba.Valid()
    modifies gba.pipeline, gba`pipelineInsertPoint, gba`pipelineReadPoint, gba`skipFetch
    ensures gba.pipeline[..] == [0, 0, old(gba.pipeline[2])]
    ensures gba.pipelineReadPoint == 0 && gba.pipelineInsertPoint == 2 && gba.skipFetch
  {
    ResetQueue(gba);
    RefillThumb(gba);
    SkipNextFetch(gba);
  }

  /** Both queue positions back to 0. */
  method ResetQueue(gba: Gba)
    modifies gba`pipelineInsertPoint, gba`pipelineReadPoint
    ensures gba.pipelineInsertPoint == 0 && gba.pipelineReadPoint == 0
  {
    gba.pipelineInsertPoint := 0;
    gba.pipelineReadPoint := 0;
  }

  method SkipNextFetch(gba: Gba)
    modifies gba`skipFetch
    ensures gba.skipFetch
  {
    gba.skipFetch := true;
  }

  /** The THUMB branch of flushRefillPipeline: two zeros from readTHUMBOpcode. */
  method RefillThumb(gba: Gba)
    requires gba.Valid() && gba.pipelineInsertPoint == 0
    modifies gba.pipeline, gba`pipelineInsertPoint
    ensures gba.pipeline[..] == [0, 0, old(gba.pipeline[2])] && gba.pipelineInsertPoint == 2
  {
    InsertPipeline(gba, 0);
    InsertPipeline(gba, 0);
  }

  /** The ARM branch of flushRefillPipeline: two opcodes fetched from R15 on. */
  method RefillArm(gba: Gba, ghost pc: dword)
    requires gba.Valid() && pc == gba.REG[R15] && gba.pipelineInsertPoint == 0
    modifies gba.REG, gba.pipeline, gba`pipelineInsertPoint
    ensures gba.pipeline[0] == Fetch(gba, pc) && gba.pipeline[1] == Fetch(gba, After(pc, 4))
    ensures gba.pipelineInsertPoint == 2
    ensures gba.REG[..] == old(gba.REG[..])[R15 := After(pc, 8)]
  {
    FetchInsert(gba, pc);
    FetchInsert(gba, After(pc, 4));
    FourAndFour(pc);
  }

  /** insertPipeline(gba, readARMOpcode(gba)). */
  method FetchInsert(gba: Gba, ghost pc: dword)
    requires gba.Valid() && gba.pipelineInsertPoint < 3 && pc == gba.REG[R15]
    modifies gba.REG, gba.pipeline, gba`pipelineInsertPoint
    ensures gba.pipeline[..] == old(gba.pipeline[..])[old(gba.pipelineInsertPoint) := Fetch(gba, pc)]
    ensures gba.pipelineInsertPoint == Following(old(gba.pipelineInsertPoint))
    ensures gba.REG[..] == old(gba.REG[..])[R15 := After(pc, 4)]
  {
    var opcode := ReadArmOpcode(gba);
    InsertPipeline(gba, opcode);
  }

  lemma FourAndFour(x: dword)
    ensures After(After(x, 4), 4) == After(x, 8) && After(After(x, 8), 4) == After(After(x, 4), 8)
  {
  }

  // ---------------------------------------------------------------------------------------
  // Dispatch

  /** What dispatchARM runs for an opcode: nothing when the condition in bits 31-28 fails,
   *  otherwise the handler of the table slot for the opcode. */
  function Dispatched(cpsr: dword, opcode: dword): (h: Option<Handler>)
    ensures h.Some? <==> Condition(cpsr, opcode >> 28)
    ensures h.Some? ==> h.value == Classify(LutIndex(opcode))
  {
    if Condition(cpsr, opcode >> 28) then Some(Classify(LutIndex(opcode))) else None
  }

  /** An opcode whose condition is AL (1110) always runs, one whose condition is 1111 never. */
  lemma DispatchedByCondition(cpsr: dword, opcode: dword)
    ensures opcode >> 28 == 0xE ==> Dispatched(cpsr, opcode) == Some(Classify(LutIndex(opcode)))
    ensures opcode >> 28 == 0xF ==> Dispatched(cpsr, opcode) == None
  {
    ConditionAlwaysNever(cpsr);
  }

  /** Whether a handler writes R15 and so reloads the queue: B and BL. */
  predicate Branches(h: Option<Handler>)
  {
    h == Some(B) || h == Some(BL)
  }

  /** Where the B or BL handler reloads the queue from, as written, for an instruction run with
   *  R15 = r15. */
  function BranchTarget(h: Option<Handler>, ins: dword, r15: dword): dword
  {
    if h == Some(BL) then LinkTargetAsWritten(r15, ins) else BranchTargetAsWritten(r15, ins)
  }

  /** The B handler: R15 moves by the unsign-extended offset and the queue is reloaded from
   *  there. */
  method Branch(gba: Gba, ins: dword, pc: dword)
    requires gba.Valid() && pc == gba.REG[R15] && gba.cpuState == ArmState
    modifies gba.REG, gba.pipeline, gba`pipelineInsertPoint, gba`pipelineReadPoint, gba`skipFetch
    ensures Refilled(gba, BranchTargetAsWritten(pc, ins))
    ensures gba.REG[..] == old(gba.REG[..])[R15 := After(BranchTargetAsWritten(pc, ins), 8)]
  {
    var target := BranchTargetAsWritten(pc, ins);
    SetRegister(gba, R15, target);
    FlushArm(gba, target);
  }

  /** The BL handler: R14 gets R15 - 4, the address of the next instruction, and the queue is
   *  reloaded from R15, which BL does not move. */
  method BranchLink(gba: Gba, ins: dword, pc: dword)
    requires gba.Valid() && pc == gba.REG[R15] && gba.cpuState == ArmState
    modifies gba.REG, gba.pipeline, gba`pipelineInsertPoint, gba`pipelineReadPoint, gba`skipFetch
    ensures Refilled(gba, LinkTargetAsWritten(pc, ins))
    ensures gba.REG[..] == old(gba.REG[..])[R14 := pc - 4][R15 := After(LinkTargetAsWritten(pc, ins), 8)]
  {
    SetRegister(gba, R14, pc - 4);
    FlushArm(gba, pc);
  }

  /** One register write. */
  method SetRegister(gba: Gba, i: nat, v: dword)
    requires gba.Valid() && i < 16
    modifies gba.REG
    ensures gba.REG[..] == old(gba.REG[..])[i := v]
  {
    gba.REG[i] := v;
  }

  /** dispatchARM: the condition test on the CPSR, then the table slot's handler. */
  method DispatchArm(gba: Gba, opcode: dword, pc: dword) returns (executed: Option<Handler>)
    requires gba.Valid() && Filled(gba.ARM_LUT) && pc == gba.REG[R15] && gba.cpuState == ArmState
    modifies gba.REG, gba.pipeline, gba`pipelineInsertPoint, gba`pipelineReadPoint, gba`skipFetch
    ensures executed == Dispatched(gba.CPSR, opcode)
    ensures Branches(executed) ==> Refilled(gba, BranchTarget(executed, opcode, pc))
    ensures executed == Some(B) ==>
              gba.REG[..] == old(gba.REG[..])[R15 := After(BranchTargetAsWritten(pc, opcode), 8)]
    ensures executed == Some(BL) ==>
              gba.REG[..] == old(gba.REG[..])[R14 := pc - 4][R15 := After(LinkTargetAsWritten(pc, opcode), 8)]
    ensures !Branches(executed) ==>
              unchanged(gba.REG, gba.pipeline) && unchanged(gba`pipelineInsertPoint, gba`pipelineReadPoint, gba`skipFetch)
  {
    if !Condition(gba.CPSR, opcode >> 28) {
      return None;
    }
    var h := gba.ARM_LUT[LutIndex(opcode)];
    executed := Some(h);
    if h == B {
      Branch(gba, opcode, pc);
    } else if h == BL {
      BranchLink(gba, opcode, pc);
    }
  }

  // ---------------------------------------------------------------------------------------
  // stepCPU

  /** The queue in the executable state flushRefillPipeline sets up and stepCPU keeps, for the
   *  instruction at address x: the next two entries hold the words at x and x + 4, R15 runs 8
   *  bytes ahead at x + 8, the insert point is the entry after those two, and no fetch is to be
   *  skipped. */
  ghost predicate ReadyAt(gba: Gba, x: dword)
    reads gba.pipeline, gba.REG, gba.IWRAM, gba`pipelineInsertPoint, gba`pipelineReadPoint
    reads gba`skipFetch
    requires gba.Valid()
  {
    gba.pipelineReadPoint < 3 &&
    gba.pipelineInsertPoint == Following(Following(gba.pipelineReadPoint)) && !gba.skipFetch &&
    gba.REG[R15] == After(x, 8) &&
    gba.pipeline[gba.pipelineReadPoint] == Fetch(gba, x) &&
    gba.pipeline[Following(gba.pipelineReadPoint)] == Fetch(gba, After(x, 4))
  }

  /** The instruction after the one at x: the branch target for B and BL, x + 4 otherwise. */
  function NextAddress(h: Option<Handler>, ins: dword, x: dword): dword
  {
    if Branches(h) then BranchTarget(h, ins, After(x, 8)) else After(x, 4)
  }

  /** The registers after the ARM step of an instruction run with R15 = r15: B and BL as their
   *  handlers leave them, every other opcode (run or skipped) only moves R15 on by four with the
   *  next fetch. */
  function NextRegisters(regs: seq<dword>, h: Option<Handler>, ins: dword, r15: dword): (r: seq<dword>)
    requires |regs| == 16
    ensures |r| == 16
    ensures forall i :: 0 <= i < 14 ==> r[i] == regs[i]
    ensures h == Some(BL) ==> r[R14] == r15 - 4
    ensures h != Some(BL) ==> r[R14] == regs[R14]
  {
    if h == Some(B) then regs[R15 := After(BranchTargetAsWritten(r15, ins), 8)]
    else if h == Some(BL) then regs[R14 := r15 - 4][R15 := After(LinkTargetAsWritten(r15, ins), 8)]
    else regs[R15 := After(r15, 4)]
  }

  /** The register file before dispatchARM, after it, and after the end of stepCPU compose to
   *  NextRegisters. */
  lemma StepRegisters(regs0: seq<dword>, regs1: seq<dword>, regs2: seq<dword>, h: Option<Handler>,
                      ins: dword, r15: dword)
    requires |regs0| == 16
    requires h == Some(B) ==> regs1 == regs0[R15 := After(BranchTargetAsWritten(r15, ins), 8)]
    requires h == Some(BL) ==>
               regs1 == regs0[R14 := r15 - 4][R15 := After(LinkTargetAsWritten(r15, ins), 8)]
    requires !Branches(h) ==> regs1 == regs0
    requires Branches(h) ==> regs2 == regs1
    requires !Branches(h) ==> regs2 == regs1[R15 := After(r15, 4)]
    ensures regs2 == NextRegisters(regs0, h, ins, r15)
  {
  }

  /** Three steps round the queue come back to the start. */
  lemma FollowingCycle(i: nat)
    requires i < 3
    ensures Following(Following(Following(i))) == i
    ensures Following(i) != i && Following(Following(i)) != i
    ensures Following(Following(i)) != Following(i)
  {
  }

  /** stepCPU in ARM state with the trace of printStateARM, for the instruction at x: the opcode
   *  at the read point is the word at x; it is traced with address x and run; then the next
   *  word is fetched unless the handler reloaded the queue. */
  method StepArm(gba: Gba, dis: GbaDebug.Disassembler, ghost x: dword)
    returns (line: GbaDebug.StateLine, executed: Option<Handler>)
    requires gba.Valid() && Filled(gba.ARM_LUT) && Filled(dis.table) && gba.cpuState == ArmState
    requires ReadyAt(gba, x)
    modifies gba.REG, gba.pipeline, gba`pipelineInsertPoint, gba`pipelineReadPoint, gba`skipFetch
    ensures executed == Dispatched(gba.CPSR, Fetch(gba, x))
    ensures line == GbaDebug.PrintState(dis, After(x, 8), gba.CPSR, Fetch(gba, x))
    ensures ReadyAt(gba, NextAddress(executed, Fetch(gba, x), x))
    ensures gba.REG[..] == NextRegisters(old(gba.REG[..]), executed, Fetch(gba, x), After(x, 8))
  {
    ghost var regs0 := gba.REG[..];
    var pc := gba.REG[R15];
    var opcode := ReadPipeline(gba);
    executed := DispatchArm(gba, opcode, pc);
    ghost var regs1 := gba.REG[..];
    Conclude(gba, executed, opcode, pc, x);
    StepRegisters(regs0, regs1, gba.REG[..], executed, opcode, pc);
    // printStateARM runs before dispatchARM; nothing it reads is changed by the handlers.
    line := GbaDebug.PrintState(dis, pc, gba.CPSR, opcode);
  }

  /** The end of stepCPU after dispatchARM ran the opcode fetched from x and traced at R15 = pc:
   *  the early return when the handler reloaded the queue, otherwise the next fetch. */
  method Conclude(gba: Gba, executed: Option<Handler>, ins: dword, pc: dword, ghost x: dword)
    requires gba.Valid() && pc == After(x, 8)
    requires Branches(executed) ==> Refilled(gba, BranchTarget(executed, ins, pc))
    requires !Branches(executed) ==>
               gba.REG[R15] == pc && gba.pipelineReadPoint < 3 && !gba.skipFetch &&
               gba.pipelineInsertPoint == Following(gba.pipelineReadPoint) &&
               gba.pipeline[gba.pipelineReadPoint] == Fetch(gba, After(x, 4))
    modifies gba.REG, gba.pipeline, gba`pipelineInsertPoint, gba`skipFetch
    ensures ReadyAt(gba, NextAddress(executed, ins, x))
    ensures Branches(executed) ==> gba.REG[..] == old(gba.REG[..])
    ensures !Branches(executed) ==> gba.REG[..] == old(gba.REG[..])[R15 := After(pc, 4)]
  {
    if gba.skipFetch {
      ResumeAt(gba, BranchTarget(executed, ins, pc));
    } else {
      FetchNext(gba, x);
    }
  }

  /** `gba->skipFetch = false` right after flushRefillPipeline refilled the queue from target:
   *  the queue is then ready for the instruction there. */
  method ResumeAt(gba: Gba, target: dword)
    requires gba.Valid() && Refilled(gba, target)
    modifies gba`skipFetch
    ensures ReadyAt(gba, target)
  {
    ClearSkip(gba);
  }

  /** The end of stepCPU after a handler that left R15 at x + 8: the word there is queued behind
   *  the one at x + 4, and R15 moves on by four. */
  method FetchNext(gba: Gba, ghost x: dword)
    requires gba.Valid() && gba.REG[R15] == After(x, 8) && gba.pipelineReadPoint < 3
    requires gba.pipelineInsertPoint == Following(gba.pipelineReadPoint) && !gba.skipFetch
    requires gba.pipeline[gba.pipelineReadPoint] == Fetch(gba, After(x, 4))
    modifies gba.REG, gba.pipeline, gba`pipelineInsertPoint
    ensures ReadyAt(gba, After(x, 4))
    ensures gba.REG[..] == old(gba.REG[..])[R15 := After(After(x, 8), 4)]
  {
    FetchInsert(gba, After(x, 8));
    FollowingCycle(gba.pipelineReadPoint);
    FourAndFour(x);
  }

  method ClearSkip(gba: Gba)
    modifies gba`skipFetch
    ensures !gba.skipFetch
  {
    gba.skipFetch := false;
  }

  /** stepCPU in THUMB state: the opcode at the read point goes to the empty dispatchTHUMB;
   *  then a pending skip is cleared, or the 0 of readTHUMBOpcode is queued. */
  method StepThumb(gba: Gba)
    requires gba.Valid() && Indexed(gba)
    modifies gba.pipeline, gba`pipelineInsertPoint, gba`pipelineReadPoint, gba`skipFetch
    ensures gba.pipelineReadPoint == Following(old(gba.pipelineReadPoint)) && !gba.skipFetch
    ensures old(gba.skipFetch) ==>
              gba.pipeline[..] == old(gba.pipeline[..]) &&
              gba.pipelineInsertPoint == old(gba.pipelineInsertPoint)
    ensures !old(gba.skipFetch) ==>
              gba.pipeline[..] == old(gba.pipeline[..])[old(gba.pipelineInsertPoint) := 0] &&
              gba.pipelineInsertPoint == Following(old(gba.pipelineInsertPoint))
  {
    var opcode := ReadPipeline(gba);
    if gba.skipFetch {
      ClearSkip(gba);
    } else {
      InsertPipeline(gba, 0);
    }
  }

  /** stepCPU with the state trace of the debug build: the ARM step traces and dispatches the
   *  instruction at x; the THUMB step neither traces nor runs anything. */
  method Step(gba: Gba, dis: GbaDebug.Disassembler, ghost x: dword)
    returns (line: Option<GbaDebug.StateLine>, executed: Option<Handler>)
    requires gba.Valid() && Filled(gba.ARM_LUT) && Filled(dis.table)
    requires gba.cpuState == ArmState ==> ReadyAt(gba, x)
    requires gba.cpuState == ThumbState ==> Indexed(gba)
    modifies gba.REG, gba.pipeline, gba`pipelineInsertPoint, gba`pipelineReadPoint, gba`skipFetch
    ensures gba.cpuState == ArmState ==>
              executed == Dispatched(gba.CPSR, Fetch(gba, x)) &&
              line == Some(GbaDebug.PrintState(dis, After(x, 8), gba.CPSR, Fetch(gba, x))) &&
              ReadyAt(gba, NextAddress(executed, Fetch(gba, x), x)) &&
              gba.REG[..] == NextRegisters(old(gba.REG[..]), executed, Fetch(gba, x), After(x, 8))
    ensures gba.cpuState == ThumbState ==>
              line == None && executed == None && gba.REG[..] == old(gba.REG[..]) && Indexed(gba) &&
              !gba.skipFetch
  {
    if gba.cpuState == ArmState {
      var l;
      l, executed := StepArm(gba, dis, x);
      line := Some(l);
    } else {
      StepThumb(gba);
      line, executed := None, None;
    }
  }

  // ---------------------------------------------------------------------------------------
  // initialiseCPU

  /** n zero words. */
  function Zeros(n: nat): (z: seq<dword>)
    ensures |z| == n && forall i :: 0 <= i < n ==> z[i] == 0
  {
    seq(n, _ => 0)
  }

  /** The register file, REG_SWAP, the banks, BANK_SPSR and the SPSR as initialiseCPU presets
   *  them, emulating the BIOS: everything zero except R13 = 0x03007F00, R15 = 0x08000000 (the
   *  start of the gamepak), R13_svc = 0x03007FE0, R13_irq = 0x03007FA0, and the SPSR
   *  0xFFFFFFFF that marks it unreadable in System mode. */
  function ResetRegs(): GbaBanks.Regs
  {
    GbaBanks.Regs(Zeros(16)[R13 := 0x0300_7F00][R15 := 0x0800_0000], Zeros(7), Zeros(7),
                  [0x0300_7FE0, 0], Zeros(2), [0x0300_7FA0, 0], Zeros(2), Zeros(5), 0xFFFF_FFFF)
  }

  /** The preset state with CPSR 0x1F is consistent System mode, whatever R15 has moved on to. */
  lemma ResetConsistent(r15: dword)
    ensures GbaBanks.Consistent(GbaBanks.Banked(ResetRegs().(reg := ResetRegs().reg[R15 := r15]), 0x1F, System))
    ensures GetMode(0x1F) == Some(System)
  {
  }

  /** memset of an array of words to zero. */
  method Clear(a: array<dword>)
    modifies a
    ensures a[..] == Zeros(a.Length)
  {
    for i := 0 to a.Length
      invariant forall j :: 0 <= j < i ==> a[j] == 0
    {
      a[i] := 0;
    }
  }

  /** The register presets of initialiseCPU. */
  method PresetRegisters(gba: Gba)
    requires gba.Valid()
    modifies gba.REG, gba.REG_SWAP, gba.BANK_FIQ, gba.BANK_SVC, gba.BANK_ABT, gba.BANK_IRQ
    modifies gba.BANK_UND, gba.BANK_SPSR, gba`CPSR, gba`SPSR
    ensures RegsOf(gba) == ResetRegs() && gba.CPSR == 0x1F
  {
    ClearBanks(gba);
    gba.BANK_SVC[0] := 0x0300_7FE0;
    gba.BANK_IRQ[0] := 0x0300_7FA0;
    Clear(gba.REG);
    Clear(gba.REG_SWAP);
    SetRegister(gba, R13, 0x0300_7F00);
    SetRegister(gba, R15, 0x0800_0000);
    gba.CPSR := 0x1F;
    gba.SPSR := 0xFFFF_FFFF;
  }

  /** The memsets of BANK_FIQ, the four two-word banks and BANK_SPSR. */
  method ClearBanks(gba: Gba)
    requires gba.Valid()
    modifies gba.BANK_FIQ, gba.BANK_SVC, gba.BANK_ABT, gba.BANK_IRQ, gba.BANK_UND, gba.BANK_SPSR
    ensures gba.BANK_FIQ[..] == Zeros(7) && gba.BANK_SPSR[..] == Zeros(5)
    ensures gba.BANK_SVC[..] == Zeros(2) && gba.BANK_ABT[..] == Zeros(2)
    ensures gba.BANK_IRQ[..] == Zeros(2) && gba.BANK_UND[..] == Zeros(2)
  {
    Clear(gba.BANK_FIQ);
    Clear(gba.BANK_SVC);
    Clear(gba.BANK_ABT);
    Clear(gba.BANK_IRQ);
    Clear(gba.BANK_UND);
    Clear(gba.BANK_SPSR);
  }

  /** The state initialiseCPU leaves: the presets with R15 moved past the two prefetched words,
   *  ARM state in System mode, the decode table filled, no cycles counted, and the queue ready
   *  for the instruction at 0x08000000. */
  ghost predicate Reset(gba: Gba)
    reads gba, gba.REG, gba.REG_SWAP, gba.BANK_FIQ, gba.BANK_SVC, gba.BANK_ABT, gba.BANK_IRQ
    reads gba.BANK_UND, gba.BANK_SPSR, gba.ARM_LUT, gba.pipeline, gba.IWRAM
    requires gba.Valid()
  {
    RegsOf(gba) == ResetRegs().(reg := ResetRegs().reg[R15 := 0x0800_0008]) &&
    gba.CPSR == 0x1F && gba.cpuState == ArmState && gba.cpuMode == System && gba.cycles == 0 &&
    Filled(gba.ARM_LUT) && ReadyAt(gba, 0x0800_0000)
  }

  /** initialiseCPU. */
  method InitialiseCPU(gba: Gba)
    requires gba.Valid()
    modifies gba, gba.REG, gba.REG_SWAP, gba.BANK_FIQ, gba.BANK_SVC, gba.BANK_ABT, gba.BANK_IRQ
    modifies gba.BANK_UND, gba.BANK_SPSR, gba.ARM_LUT, gba.pipeline
    ensures Reset(gba) && gba.run == old(gba.run)
  {
    Preset(gba);
    FlushRefill(gba);
    ResumeAt(gba, 0x0800_0000);
  }

  /** initialiseCPU up to the refill of the queue. */
  method Preset(gba: Gba)
    requires gba.Valid()
    modifies gba, gba.REG, gba.REG_SWAP, gba.BANK_FIQ, gba.BANK_SVC, gba.BANK_ABT, gba.BANK_IRQ
    modifies gba.BANK_UND, gba.BANK_SPSR, gba.ARM_LUT, gba.pipeline
    ensures RegsOf(gba) == ResetRegs() && gba.CPSR == 0x1F
    ensures gba.cpuState == ArmState && gba.cpuMode == System && gba.cycles == 0 && gba.run == old(gba.run)
    ensures Filled(gba.ARM_LUT) && gba.pipelineInsertPoint == 0 && gba.pipelineReadPoint == 0
  {
    EnterArmSystem(gba);
    PresetRegisters(gba);
    FillTable(gba.ARM_LUT);
    ClearQueue(gba);
  }

  method EnterArmSystem(gba: Gba)
    modifies gba`cpuState, gba`cpuMode
    ensures gba.cpuState == ArmState && gba.cpuMode == System
  {
    gba.cpuState := ArmState;
    gba.cpuMode := System;
  }

  /** The memset of the queue and the other values of initialiseCPU. */
  method ClearQueue(gba: Gba)
    requires gba.Valid()
    modifies gba.pipeline, gba`pipelineInsertPoint, gba`pipelineReadPoint, gba`skipFetch, gba`cycles
    ensures gba.pipeline[..] == Zeros(3) && gba.pipelineInsertPoint == 0 && gba.pipelineReadPoint == 0
    ensures !gba.skipFetch && gba.cycles == 0
  {
    Clear(gba.pipeline);
    ResetQueue(gba);
    ClearSkip(gba);
    gba.cycles := 0;
  }

  // ---------------------------------------------------------------------------------------
  // The emulator loop of gba/gba.c

  /** The n lines printStateARM prints from the instruction at x on, with the CPSR and memory as
   *  they are: the line of that instruction, then those from the instruction it passes control
   *  to. */
  /** The instruction control passes to from the one at x, with the CPSR and memory as they
   *  are: the successor stepCPU primes the pipeline at. */
  ghost function Successor(rom: seq<byte>, iwram: seq<byte>, cpsr: dword, x: dword): dword
  {
    var ins := GbaBus.BusRead(rom, iwram, x, GbaBus.Width32);
    NextAddress(Dispatched(cpsr, ins), ins, x)
  }

  /** The instruction control has reached after n passes of stepCPU from x. */
  ghost function Path(rom: seq<byte>, iwram: seq<byte>, cpsr: dword, x: dword, n: nat): dword
    decreases n
  {
    if n == 0 then x else Path(rom, iwram, cpsr, Successor(rom, iwram, cpsr, x), n - 1)
  }

  /** initialiseGBA with the debug build's initDissembler: a fresh emulator on the gamepak,
   *  stopped, in the state initialiseCPU leaves. */
  method InitialiseGBA(gamepak: seq<byte>) returns (gba: Gba, dis: GbaDebug.Disassembler)
    ensures fresh(gba) && fresh(gba.REG) && fresh(gba.pipeline) && fresh(dis.table)
    ensures gba.Valid() && gba.rom == gamepak && !gba.run && Reset(gba) && Filled(dis.table)
  {
    gba := new Gba(gamepak);
    InitialiseCPU(gba);
    dis := new GbaDebug.Disassembler();
    GbaDebug.InitDissembler(dis);
  }

  /** One pass of the loop of startGBAEmulator: stepCPU runs the instruction at y and leaves
   *  the pipeline primed at its successor. */
  method Pass(gba: Gba, dis: GbaDebug.Disassembler, ghost mem: seq<byte>, ghost y: dword)
    returns (ghost next: dword)
    requires gba.Valid() && Filled(gba.ARM_LUT) && Filled(dis.table) && gba.cpuState == ArmState
    requires ReadyAt(gba, y) && mem == gba.IWRAM[..]
    modifies gba.REG, gba.pipeline, gba`pipelineInsertPoint, gba`pipelineReadPoint, gba`skipFetch
    ensures ReadyAt(gba, next) && next == Successor(gba.rom, mem, gba.CPSR, y)
  {
    ghost var ins := Fetch(gba, y);
    var line, executed := Step(gba, dis, y);
    next := NextAddress(executed, ins, y);
  }

  /** The internal work RAM reads the same bytes as on entry when none of them has changed. */
  twostate lemma MemoryKept(gba: Gba)
    requires unchanged(gba.IWRAM)
    ensures gba.IWRAM[..] == old(gba.IWRAM[..])
  {
  }

  /** The loop of startGBAEmulator for a given number of passes: the pipeline ends primed at the
   *  instruction control reaches from x. */
  method Run(gba: Gba, dis: GbaDebug.Disassembler, ghost x: dword, steps: nat)
    requires gba.Valid() && Filled(gba.ARM_LUT) && Filled(dis.table) && gba.cpuState == ArmState
    requires ReadyAt(gba, x)
    modifies gba.REG, gba.pipeline, gba`pipelineInsertPoint, gba`pipelineReadPoint, gba`skipFetch
    ensures ReadyAt(gba, Path(gba.rom, gba.IWRAM[..], gba.CPSR, x, steps))
  {
    ghost var y := x;
    ghost var mem := gba.IWRAM[..];
    var i := 0;
    while i < steps
      invariant i <= steps && ReadyAt(gba, y)
      invariant Path(gba.rom, mem, gba.CPSR, y, steps - i) == Path(gba.rom, mem, gba.CPSR, x, steps)
    {
      MemoryKept(gba);
      y := Pass(gba, dis, mem, y);
      i := i + 1;
    }
    MemoryKept(gba);
  }

  /** startGBAEmulator for a given number of passes: initialiseGBA, run set, then the loop from
   *  the start of the gamepak. */
  method StartEmulator(gamepak: seq<byte>, steps: nat) returns (gba: Gba, dis: GbaDebug.Disassembler)
    ensures gba.Valid() && gba.rom == gamepak && gba.run && Filled(dis.table)
    ensures ReadyAt(gba, Path(gamepak, gba.IWRAM[..], gba.CPSR, 0x0800_0000, steps))
  {
    gba, dis := InitialiseGBA(gamepak);
    gba.run := true;
    Run(gba, dis, 0x0800_0000, steps);
  }
}
