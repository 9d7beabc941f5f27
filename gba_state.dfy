// struct GBA of include/gba/gba.h as far as the ARM core and the bus use it: the register file
// with its banked copies, the three-entry prefetch queue, the decode table, the gamepak image
// and internal work RAM.

module GbaState {
  import opened Bits
  import opened GbaDecode

  /** CPU_STATE. */
  datatype CpuState = ArmState | ThumbState

  /** CPU_MODE. */
  datatype Mode = User | Fiq | Irq | Svc | Abt | Und | System

  /** The two modes without banked registers or an SPSR. */
  predicate Unprivileged(m: Mode)
  {
    m == User || m == System
  }

  /** The slot of a mode's SPSR in BANK_SPSR, in the order the header lists them: FIQ, SVC,
   *  ABT, IRQ, UND. */
  function SpsrSlot(m: Mode): (i: nat)
    requires !Unprivileged(m)
    ensures i < 5
  {
    match m
    case Fiq => 0
    case Svc => 1
    case Abt => 2
    case Irq => 3
    case Und => 4
  }

  /** Distinct privileged modes keep their SPSRs in distinct slots. */
  lemma SpsrSlotsDistinct(a: Mode, b: Mode)
    requires !Unprivileged(a) && !Unprivileged(b) && a != b
    ensures SpsrSlot(a) != SpsrSlot(b)
  {
  }

  const R13: nat := 13
  const R14: nat := 14
  const R15: nat := 15

  class Gba {
    const REG: array<dword>
    var CPSR: dword
    var SPSR: dword
    /** R8-R12 of User/System while FIQ is active (slots 0-4), and R13-R14 of User/System while
     *  any privileged mode is (slots 5-6). */
    const REG_SWAP: array<dword>
    const BANK_FIQ: array<dword>
    const BANK_SVC: array<dword>
    const BANK_ABT: array<dword>
    const BANK_IRQ: array<dword>
    const BANK_UND: array<dword>
    const BANK_SPSR: array<dword>
    var cpuState: CpuState
    var cpuMode: Mode
    var cycles: nat
    const pipeline: array<dword>
    var pipelineInsertPoint: nat
    var pipelineReadPoint: nat
    var skipFetch: bool
    const ARM_LUT: array<Handler>
    /** The gamepak's allocated bytes; its size is their number. */
    const rom: seq<byte>
    const IWRAM: array<byte>
    var run: bool

    /** The arrays have their C sizes, and arrays of the same size are distinct objects. */
    predicate Valid()
    {
      REG.Length == 16 && REG_SWAP.Length == 7 && BANK_FIQ.Length == 7 &&
      BANK_SVC.Length == 2 && BANK_ABT.Length == 2 && BANK_IRQ.Length == 2 && BANK_UND.Length == 2 &&
      BANK_SPSR.Length == 5 && pipeline.Length == 3 && ARM_LUT.Length == 0x1000 &&
      IWRAM.Length == 0x8000 &&
      REG_SWAP != BANK_FIQ &&
      BANK_SVC != BANK_ABT && BANK_SVC != BANK_IRQ && BANK_SVC != BANK_UND &&
      BANK_ABT != BANK_IRQ && BANK_ABT != BANK_UND && BANK_IRQ != BANK_UND
    }

    /** The allocations of initialiseGBA with the gamepak attached and run cleared. The register
     *  contents are whatever the caller's struct held until initialiseCPU sets them. */
    constructor (gamepak: seq<byte>)
      ensures Valid() && rom == gamepak && !run
      ensures fresh(REG) && fresh(REG_SWAP) && fresh(BANK_FIQ) && fresh(BANK_SVC) && fresh(BANK_ABT)
      ensures fresh(BANK_IRQ) && fresh(BANK_UND) && fresh(BANK_SPSR) && fresh(pipeline)
      ensures fresh(ARM_LUT) && fresh(IWRAM)
    {
      REG := new dword[16];
      REG_SWAP := new dword[7];
      BANK_FIQ := new dword[7];
      BANK_SVC := new dword[2];
      BANK_ABT := new dword[2];
      BANK_IRQ := new dword[2];
      BANK_UND := new dword[2];
      BANK_SPSR := new dword[5];
      pipeline := new dword[3];
      ARM_LUT := new Handler[0x1000](_ => Unimplemented);
      IWRAM := new byte[0x8000];
      rom := gamepak;
      run := false;
    }
  }
}
