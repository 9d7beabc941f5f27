// The state of the legacy flat-memory emulator (include/vm.h, src/vm.c initVM, src/cpu.c resetGBC):
// one 64 KiB MEM array holding every region, the ten-byte register file, and the controller the
// cartridge type selects.

module VmState {
  import opened Bits
  import opened GbCart
  import opened VmBanks
  import GbState
  import VmMbc1
  import VmCartridge

  /** The memory controller behind memControllerType / memController. MBC2 (src/mbc2.c) is not
   *  part of this model: only the calls routed to it are. */
  datatype Controller = NoMbc | Mbc1Ctl(m: VmMbc1.Mbc1) | Mbc2Ctl

  /** The controller's state as a value: MBC1's registers and its RAM (empty without RAM). */
  datatype CtlState = NoCtl | Mbc1State(regs: VmMbc1.Registers, ram: seq<byte>) | Mbc2State

  /** Everything a memory write can change: MEM, the selected joypad mode, the controller. */
  datatype BusState = BusState(mem: seq<byte>, joypadSelectedMode: byte, ctl: CtlState)

  /** The PPU's lock flags, which drop writes to and blank reads from VRAM, OAM and the palettes. */
  datatype LockFlags = LockFlags(vram: bool, oam: bool, palettes: bool)

  /** A bus state the C structures can hold. */
  predicate BusValid(bus: BusState)
  {
    |bus.mem| == MEM_SIZE &&
    (bus.ctl.Mbc1State? ==> VmMbc1.RegsValid(bus.ctl.regs) && VmMbc1.RamShape(bus.ctl.ram))
  }

  /** hreg_defaults of resetGBC: MEM[0xFF00 + i] for i < 0x50. */
  function LegacyHregDefault(i: nat): byte
    requires i < 0x50
  {
    if i < 0x08 then [0xCF, 0x00, 0x7F, 0xFF, 0xAC, 0x00, 0x00, 0xF8][i]
    else if i < 0x10 then (if i == 0x0F then 0xE1 else 0xFF)
    else if i < 0x18 then [0x80, 0xBF, 0xF3, 0xFF, 0xBF, 0xFF, 0x3F, 0x00][i - 0x10]
    else if i < 0x20 then [0xFF, 0xBF, 0x7F, 0xFF, 0x9F, 0xFF, 0xBF, 0xFF][i - 0x18]
    else if i < 0x28 then [0xFF, 0x00, 0x00, 0xBF, 0x77, 0xF3, 0xF1, 0xFF][i - 0x20]
    else if i < 0x40 then 0xFF
    else if i < 0x48 then [0x91, 0xFF, 0x00, 0x00, 0x00, 0x00, 0x00, 0xFC][i - 0x40]
    else [0xFF, 0xFF, 0x00, 0x00, 0xFF, 0xFF, 0xFF, 0xFF][i - 0x48]
  }

  /** The legacy table is the current CGB table except at STAT (0x41) and KEY0 (0x4C), which the
   *  legacy reset leaves at 0xFF. */
  lemma {:induction false} LegacyHregDiffersAtStatAndKey0(i: nat)
    requires i < 0x50
    ensures LegacyHregDefault(i) == GbState.HregDefault(GbState.EmuCgb, i) <==> i != 0x41 && i != 0x4C
  {
    if i < 0x40 {
    } else if i < 0x48 {
      assert LegacyHregDefault(i) == [0x91, 0xFF, 0x00, 0x00, 0x00, 0x00, 0x00, 0xFC][i - 0x40];
    } else {
      assert LegacyHregDefault(i) == [0xFF, 0xFF, 0x00, 0x00, 0xFF, 0xFF, 0xFF, 0xFF][i - 0x48];
    }
  }

  /** MEM[0xFF00..0xFFFF) after resetGBC: the table, then 0xAF bytes of 0xFF up to but not
   *  including IE at 0xFFFF. */
  function ResetIO(): (io: seq<byte>)
    ensures |io| == 0xFF
    ensures forall i :: 0 <= i < 0x50 ==> io[i] == LegacyHregDefault(i)
    ensures forall i :: 0x50 <= i < 0xFF ==> io[i] == 0xFF
  {
    seq(0x50, i requires 0 <= i < 0x50 => LegacyHregDefault(i)) + seq(0xAF, _ => 0xFF)
  }

  /** The CGB register file resetGBC sets, in GP_REG order (A, F, B, C, D, E, H, L, SP high,
   *  SP low). */
  const RESET_GPR: seq<byte> := [0x11, 0x80, 0x00, 0x00, 0xFF, 0x56, 0x00, 0x0D, 0xFF, 0xFE]

  /** struct VM without its SDL handles. The PPU lock flags, the halt and EI scheduling flags and
   *  joypadSelectedMode are used by src/cpu.c though include/vm.h does not declare them. */
  class VM {
    const MEM: array<byte>
    const GPR: array<byte>
    var PC: word
    var IME: bool
    var haltMode: bool
    var scheduleHaltBug: bool
    var scheduleInterruptEnable: bool
    var lockVRAM: bool
    var lockOAM: bool
    var lockPalettes: bool
    var joypadSelectedMode: byte
    var clock: nat
    var run: bool
    var cartridge: VmCartridge.Cartridge?
    var mbc: Controller

    /** The objects a memory controller owns. */
    function MbcRepr(): set<object>
      reads this`mbc
    {
      match mbc
      case Mbc1Ctl(m) => if m.ramBanks == null then {m} else {m, m.ramBanks}
      case _ => {}
    }

    /** MEM and GPR have their C sizes and are distinct from each other and from the controller's
     *  RAM; an MBC1 controller is valid and has the cartridge it was allocated for. */
    predicate Valid()
      reads this`mbc, this`cartridge, MbcRepr()
    {
      MEM.Length == MEM_SIZE && GPR.Length == 10 && MEM != GPR &&
      (mbc.Mbc1Ctl? ==>
         mbc.m.Valid() && mbc.m.ramBanks != MEM && mbc.m.ramBanks != GPR && cartridge != null)
    }

    /** The controller state as a value. */
    function Ctl(): CtlState
      reads this`mbc, MbcRepr()
    {
      match mbc
      case NoMbc => NoCtl
      case Mbc1Ctl(m) => Mbc1State(m.Regs(), m.Ram())
      case Mbc2Ctl => Mbc2State
    }

    /** What a memory write can change, as a value. */
    function Bus(): BusState
      reads this`mbc, this`joypadSelectedMode, MEM, MbcRepr()
    {
      BusState(MEM[..], joypadSelectedMode, Ctl())
    }

    /** A valid VM's bus state is a valid one. */
    lemma BusOfValid()
      requires Valid()
      ensures BusValid(Bus())
    {
    }

    function Locks(): LockFlags
      reads this`lockVRAM, this`lockOAM, this`lockPalettes
    {
      LockFlags(lockVRAM, lockOAM, lockPalettes)
    }

    /** The cartridge image the controller copies banks from (empty with no cartridge). */
    function Rom(): seq<byte>
      reads this`cartridge, cartridge
    {
      if cartridge == null then [] else cartridge.image
    }

    /** The ROM size code of the inserted cartridge (0 with no cartridge). */
    function RomSize(): byte
      reads this`cartridge, cartridge
    {
      if cartridge == null then 0 else cartridge.header.romSize
    }

    /** initVM followed by resetGBC: no cartridge and no controller, not running, PC = 0x100, the
     *  CGB register file, the IO defaults in MEM[0xFF00..0xFFFE], IME clear. The rest of MEM and
     *  the other flags are whatever the stack held in C and are left unconstrained. */
    constructor ()
      ensures Valid() && fresh(MEM) && fresh(GPR)
      ensures cartridge == null && mbc == NoMbc && !run
      ensures PC == 0x100 && GPR[..] == RESET_GPR && !IME
      ensures MEM[0xFF00..0xFFFF] == ResetIO()
    {
      MEM := new byte[MEM_SIZE];
      GPR := new byte[10];
      cartridge := null;
      mbc := NoMbc;
      run := false;
      PC := 0x100;
      IME := false;
      new;
      GPR[0], GPR[1], GPR[2], GPR[3], GPR[4] := 0x11, 0x80, 0x00, 0x00, 0xFF;
      GPR[5], GPR[6], GPR[7], GPR[8], GPR[9] := 0x56, 0x00, 0x0D, 0xFF, 0xFE;
      ghost var before := MEM[..];
      Copy(MEM, 0xFF00, ResetIO());
      LoadInside(before, 0xFF00, ResetIO());
    }
  }

  /** The register file resetGBC sets is the CGB one of the current emulator, with SP = 0xFFFE. */
  lemma ResetGprMatchesCurrent(headerChecksum: byte)
    ensures RESET_GPR == GbState.ResetRegisters(GbState.EmuCgb, headerChecksum)
    ensures Join(RESET_GPR[8], RESET_GPR[9]) == 0xFFFE
  {
    assert GbState.ResetRegisters(GbState.EmuCgb, headerChecksum)[8..] == RESET_GPR[8..];
  }
}
