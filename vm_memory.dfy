// readAddr and writeAddr of the legacy emulator (src/cpu.c) and the controller routing of
// src/mbc.c, over the flat MEM array. A write is stated as a function of the bus state; the
// functions it calls whose code is not part of this model (syncTimer, incrementTIMA,
// updateJoypadRegBuffer, switchCGB_WRAM, switchCGB_VRAM and the MBC2 handlers) are reported in
// the result instead of being performed.

module VmMemory {
  import opened Bits
  import opened GbCart
  import opened VmBanks
  import opened VmState
  import GbTimer
  import GbBus
  import VmMbc1

  // The I/O registers the legacy code names, as absolute addresses.
  const A_P1: nat := 0xFF00
  const A_SC: nat := 0xFF02
  const A_DIV: nat := 0xFF04
  const A_TIMA: nat := 0xFF05
  const A_TMA: nat := 0xFF06
  const A_TAC: nat := 0xFF07
  const A_IF: nat := 0xFF0F
  const A_VBK: nat := 0xFF4F
  const A_BCPS: nat := 0xFF68
  const A_BCPD: nat := 0xFF69
  const A_OCPS: nat := 0xFF6A
  const A_OCPD: nat := 0xFF6B
  const A_SVBK: nat := 0xFF70
  const A_IE: nat := 0xFFFF

  /** A call a write makes into code outside this model, with the arguments it passes. */
  datatype Callee =
    | NoCall
    | SyncTimer(incrementTima: bool)
    | UpdateJoypad(mode: byte)
    | SwitchWram(from: byte, to: byte)
    | SwitchVram(from: byte, to: byte)
    | Mbc2RomWrite(addr: word, b: byte)
    | Mbc2RamWrite(addr: word, b: byte)

  /** The bus after a write and the outside call the write made. */
  datatype Written = Written(bus: BusState, call: Callee)

  predicate ExternalRam(a: nat) { 0xA000 <= a <= 0xBFFF }

  /** Echo RAM and the unusable area: writes are refused with a warning. */
  predicate Unwritable(a: nat) { 0xE000 <= a <= 0xFDFF || 0xFEA0 <= a <= 0xFEFF }

  predicate IoRegister(a: nat) { 0xFF00 <= a <= 0xFF7F }

  predicate Palette(a: nat) { a == A_BCPS || a == A_BCPD || a == A_OCPS || a == A_OCPD }

  /** VRAM or OAM while the PPU has it locked. */
  predicate LockedArea(locks: LockFlags, a: nat)
  {
    (0x8000 <= a <= 0x9FFF && locks.vram) || (0xFE00 <= a <= 0xFE9F && locks.oam)
  }

  // ---- P1 (joypad) writes ----

  /** The P1 merge as src/cpu.c writes it: when the low nibbles differ the written byte is cut
   *  to its low nibble before the old nibble is or-ed in, which throws away the selection bits
   *  4-5 the program wrote. */
  function JoypadWriteAsWritten(p1: byte, b: byte): byte
  {
    if b & 0xF != p1 & 0xF then (b & 0xF) | (p1 & 0xF) else b
  }

  /** As written, a write whose low nibble differs from P1's always selects mode 0. */
  lemma JoypadWriteAsWrittenLosesSelection(p1: byte, b: byte)
    requires b & 0xF != p1 & 0xF
    ensures (JoypadWriteAsWritten(p1, b) >> 4) & 3 == 0
  {
  }

  /** The input that shows it: P1 = 0xCF (no button pressed), the program selects the
   *  direction keys with 0x20; the stored value is 0x0F and the selected mode 0. */
  lemma JoypadWriteAsWrittenCounterexample()
    ensures JoypadWriteAsWritten(0xCF, 0x20) == 0x0F
    ensures (JoypadWriteAsWritten(0xCF, 0x20) >> 4) & 3 == 0 && ((0x20 as byte) >> 4) & 3 == 2
  {
  }

  /** The merge the source's comment describes: the read-only low nibble is kept from P1 and
   *  the upper bits come from the written byte. The stateful model runs the merge as written;
   *  this is the corrected one. */
  function JoypadWriteIntended(p1: byte, b: byte): (r: byte)
    ensures r & 0xF0 == b & 0xF0 && r & 0x0F == p1 & 0x0F
    ensures (r >> 4) & 3 == (b >> 4) & 3
  {
    (b & 0xF0) | (p1 & 0xF)
  }

  /** The two agree when the written low nibble already equals P1's, and select different
   *  joypad modes whenever it does not and the write selects a mode other than 0. */
  lemma JoypadWriteVersionsCompared(p1: byte, b: byte)
    ensures b & 0xF == p1 & 0xF ==> JoypadWriteAsWritten(p1, b) == JoypadWriteIntended(p1, b)
    ensures b & 0xF != p1 & 0xF && b & 0x30 != 0 ==>
              (JoypadWriteAsWritten(p1, b) >> 4) & 3 != (JoypadWriteIntended(p1, b) >> 4) & 3
  {
  }

  // ---- writes ----

  /** A000-BFFF goes to the controller's external RAM: dropped without a controller, MBC1's RAM
   *  write, or MBC2's built-in RAM. */
  function ExternalWrite(bus: BusState, addr: word, b: byte): (w: Written)
    requires BusValid(bus) && ExternalRam(WordNat(addr))
    ensures BusValid(w.bus) && w.bus.mem == bus.mem && w.bus.joypadSelectedMode == bus.joypadSelectedMode
  {
    match bus.ctl
    case NoCtl => Written(bus, NoCall)
    case Mbc1State(r, ram) => Written(bus.(ctl := Mbc1State(r, VmMbc1.RamWrite(r, ram, addr, b))), NoCall)
    case Mbc2State => Written(bus, Mbc2RamWrite(addr, b))
  }

  /** 0000-7FFF is intercepted by the controller: ignored without one, MBC1's register write
   *  with its bank copies, or MBC2's. */
  function RomAreaWrite(bus: BusState, rom: seq<byte>, romSize: byte, addr: word, b: byte): (w: Written)
    requires BusValid(bus) && WordNat(addr) <= 0x7FFF
    ensures BusValid(w.bus) && w.bus.joypadSelectedMode == bus.joypadSelectedMode
  {
    match bus.ctl
    case NoCtl => Written(bus, NoCall)
    case Mbc1State(r, ram) =>
      var m := VmMbc1.RomWrite(r, bus.mem, rom, romSize, addr, b);
      Written(BusState(m.mem, bus.joypadSelectedMode, Mbc1State(m.regs, ram)), NoCall)
    case Mbc2State => Written(bus, Mbc2RomWrite(addr, b))
  }

  /** The timer registers: TIMA and TMA are stored after a timer sync; TAC keeps its unused bits
   *  set and may glitch TIMA; a DIV write resets DIV and bumps TIMA when DIV was 1 with the
   *  timer enabled. */
  function TimerWrite(bus: BusState, clock: nat, a: nat, b: byte): (w: Written)
    requires BusValid(bus) && A_DIV <= a <= A_TAC
  {
    if a == A_TAC then
      var newTAC := b | 0xF8;
      Written(bus.(mem := bus.mem[a := newTAC]), SyncTimer(GbBus.TacGlitch(bus.mem[A_TAC], newTAC, clock)))
    else if a == A_DIV then
      // The source calls syncTimer before it tests DIV; syncTimer is not modelled, so the
      // test here reads DIV as stored, which is the value after that sync only when the
      // sync left DIV alone.
      Written(bus.(mem := bus.mem[a := 0]), SyncTimer(bus.mem[A_DIV] == 1 && GbTimer.TimerEnabled(bus.mem[A_TAC])))
    else
      Written(bus.(mem := bus.mem[a := b]), SyncTimer(false))
  }

  /** The other I/O registers: P1 is merged as written and selects a joypad mode;
   *  SVBK and VBK switch banks and keep their unused bits set; the palette registers refuse
   *  writes while locked; everything else is stored. */
  function OtherIoWrite(bus: BusState, locks: LockFlags, a: nat, b: byte): (w: Written)
    requires BusValid(bus) && IoRegister(a)
  {
    if a == A_P1 then
      var v := JoypadWriteAsWritten(bus.mem[a], b);
      Written(bus.(mem := bus.mem[a := v], joypadSelectedMode := (v >> 4) & 3), UpdateJoypad((v >> 4) & 3))
    else if a == A_SVBK then
      Written(bus.(mem := bus.mem[a := b | 0xF8]),
              SwitchWram(bus.mem[a] & 7, if b & 7 == 0 then 1 else b & 7))
    else if a == A_VBK then
      Written(bus.(mem := bus.mem[a := b | 0xFE]), SwitchVram(bus.mem[a] & 1, b & 1))
    else if Palette(a) && locks.palettes then
      Written(bus, NoCall)
    else
      Written(bus.(mem := bus.mem[a := b]), NoCall)
  }

  /** writeAddr. */
  function Write(bus: BusState, locks: LockFlags, clock: nat, rom: seq<byte>, romSize: byte, addr: word, b: byte): (w: Written)
    requires BusValid(bus)
    ensures BusValid(w.bus)
  {
    var a := WordNat(addr);
    if ExternalRam(a) then ExternalWrite(bus, addr, b)
    else if a <= 0x7FFF then RomAreaWrite(bus, rom, romSize, addr, b)
    else if Unwritable(a) then Written(bus, NoCall)
    else if A_DIV <= a <= A_TAC then TimerWrite(bus, clock, a, b)
    else if IoRegister(a) then OtherIoWrite(bus, locks, a, b)
    else if LockedArea(locks, a) then Written(bus, NoCall)
    else Written(bus.(mem := bus.mem[a := b]), NoCall)
  }

  // ---- reads ----

  /** readAddr (the timer sync it makes before reading DIV, TIMA, TMA or TAC aside). None is a
   *  read of MBC2 built-in RAM, whose value comes from code outside this model. */
  function Read(bus: BusState, locks: LockFlags, addr: word): (r: Option<byte>)
    requires BusValid(bus)
    ensures r == None <==> ExternalRam(WordNat(addr)) && bus.ctl.Mbc2State?
    ensures LockedArea(locks, WordNat(addr)) || (Palette(WordNat(addr)) && locks.palettes) ==> r == Some(0xFF)
    ensures ExternalRam(WordNat(addr)) && bus.ctl.NoCtl? ==> r == Some(0xFF)
  {
    var a := WordNat(addr);
    if ExternalRam(a) then
      match bus.ctl
      case NoCtl => Some(0xFF)
      case Mbc1State(r, ram) => Some(VmMbc1.RamRead(r, ram, addr))
      case Mbc2State => None
    else if (Palette(a) && locks.palettes) || LockedArea(locks, a) then Some(0xFF)
    else Some(bus.mem[a])
  }

  /** The registers whose read first syncs the timer. */
  predicate ReadSyncsTimer(addr: word)
  {
    A_DIV <= WordNat(addr) <= A_TAC
  }

  // ---- properties ----

  /** The addresses a write stores to verbatim: unlocked VRAM and OAM, work RAM, HRAM, IE and the
   *  I/O registers without special handling. */
  predicate StoresVerbatim(locks: LockFlags, a: nat)
  {
    (0x8000 <= a <= 0x9FFF && !locks.vram) || (0xC000 <= a <= 0xDFFF) ||
    (0xFE00 <= a <= 0xFE9F && !locks.oam) || 0xFF80 <= a <= 0xFFFF ||
    (IoRegister(a) && a != A_P1 && a != A_DIV && a != A_TAC && a != A_SVBK && a != A_VBK &&
     !(Palette(a) && locks.palettes))
  }

  /** Such a write stores exactly the byte, touches nothing else, and reads back. */
  lemma {:induction false} ReadAfterWrite(bus: BusState, locks: LockFlags, clock: nat, rom: seq<byte>, romSize: byte, addr: word, b: byte)
    requires BusValid(bus) && StoresVerbatim(locks, WordNat(addr))
    ensures Write(bus, locks, clock, rom, romSize, addr, b).bus == bus.(mem := bus.mem[WordNat(addr) := b])
    ensures Read(Write(bus, locks, clock, rom, romSize, addr, b).bus, locks, addr) == Some(b)
  {
    var a := WordNat(addr);
    if A_DIV <= a <= A_TAC {
      assert a == A_TIMA || a == A_TMA;
    }
  }

  /** Writes to echo RAM, the unusable area, locked VRAM, OAM or palettes, and to the ROM area
   *  or external RAM with no controller change nothing and call nothing. */
  lemma DroppedWrites(bus: BusState, locks: LockFlags, clock: nat, rom: seq<byte>, romSize: byte, addr: word, b: byte)
    requires BusValid(bus)
    requires var a := WordNat(addr);
             Unwritable(a) || LockedArea(locks, a) || (Palette(a) && locks.palettes) ||
             ((a <= 0x7FFF || ExternalRam(a)) && bus.ctl.NoCtl?)
    ensures Write(bus, locks, clock, rom, romSize, addr, b) == Written(bus, NoCall)
  {
  }

  /** Outside the ROM area a write changes MEM at most at its own address: the bank copies of the
   *  controller stay inside 0000-7FFF. */
  lemma {:induction false} WriteConfined(bus: BusState, locks: LockFlags, clock: nat, rom: seq<byte>, romSize: byte, addr: word, b: byte, k: nat)
    requires BusValid(bus) && 0x8000 <= k < MEM_SIZE && k != WordNat(addr)
    ensures Write(bus, locks, clock, rom, romSize, addr, b).bus.mem[k] == bus.mem[k]
  {
    var a := WordNat(addr);
    if a <= 0x7FFF && !ExternalRam(a) && bus.ctl.Mbc1State? {
      var m := VmMbc1.RomWrite(bus.ctl.regs, bus.mem, rom, romSize, addr, b);
      VmMbc1.RomWriteKeepsUpperMemory(bus.ctl.regs, bus.mem, rom, romSize, addr, b);
      assert m.mem[k] == m.mem[2 * BANK_SIZE..][k - 2 * BANK_SIZE];
    }
  }

  /** External RAM through the bus: with an MBC1 whose RAM exists and is enabled, a byte written
   *  at A000-BFFF reads back, and MEM is not touched. */
  lemma {:induction false} ExternalReadAfterWrite(bus: BusState, locks: LockFlags, clock: nat, rom: seq<byte>, romSize: byte, addr: word, b: byte)
    requires BusValid(bus) && ExternalRam(WordNat(addr))
    requires bus.ctl.Mbc1State? && |bus.ctl.ram| > 0 && bus.ctl.regs.ramEnabled
    ensures Write(bus, locks, clock, rom, romSize, addr, b).bus.mem == bus.mem
    ensures Read(Write(bus, locks, clock, rom, romSize, addr, b).bus, locks, addr) == Some(b)
  {
    VmMbc1.RamReadAfterWrite(bus.ctl.regs, bus.ctl.ram, addr, addr, b);
  }

  // ---- the VM ----

  /** writeAddr on the VM: the bus becomes Write of the old bus, and the outside call is the one
   *  Write names. The lock flags, the clock and the cartridge are read, not changed. */
  method WriteAddr(vm: VM, addr: word, b: byte) returns (call: Callee)
    requires vm.Valid()
    modifies vm.MEM, vm`joypadSelectedMode, vm.MbcRepr()
    ensures vm.Valid()
    ensures Written(vm.Bus(), call) == Write(old(vm.Bus()), vm.Locks(), vm.clock, vm.Rom(), vm.RomSize(), addr, b)
  {
    vm.BusOfValid();
    var a := WordNat(addr);
    if ExternalRam(a) {
      call := WriteExternal(vm, addr, b);
    } else if a <= 0x7FFF {
      call := WriteRomArea(vm, addr, b);
    } else if Unwritable(a) {
      call := NoCall;
    } else if IoRegister(a) {
      call := WriteIo(vm, a, b);
    } else if LockedArea(vm.Locks(), a) {
      call := NoCall;
    } else {
      vm.MEM[a] := b;
      call := NoCall;
    }
  }

  /** mbc_writeExternalRAM. */
  method WriteExternal(vm: VM, addr: word, b: byte) returns (call: Callee)
    requires vm.Valid() && ExternalRam(WordNat(addr))
    modifies vm.MbcRepr()
    ensures vm.Valid()
    ensures Written(vm.Bus(), call) == ExternalWrite(old(vm.Bus()), addr, b)
  {
    vm.BusOfValid();
    match vm.mbc
    case NoMbc => call := NoCall;
    case Mbc1Ctl(m) =>
      m.WriteExternalRAM(addr, b);
      call := NoCall;
    case Mbc2Ctl => call := Mbc2RamWrite(addr, b);
  }

  /** mbc_interceptROMWrite. */
  method WriteRomArea(vm: VM, addr: word, b: byte) returns (call: Callee)
    requires vm.Valid() && WordNat(addr) <= 0x7FFF
    modifies vm.MEM, vm.MbcRepr()
    ensures vm.Valid()
    ensures Written(vm.Bus(), call) == RomAreaWrite(old(vm.Bus()), vm.Rom(), vm.RomSize(), addr, b)
  {
    vm.BusOfValid();
    match vm.mbc
    case NoMbc => call := NoCall;
    case Mbc1Ctl(m) =>
      var ok := m.InterceptROMWrite(vm.MEM, vm.cartridge.image, vm.cartridge.header.romSize, addr, b);
      call := NoCall;
    case Mbc2Ctl => call := Mbc2RomWrite(addr, b);
  }

  /** The I/O register part of writeAddr. */
  method WriteIo(vm: VM, a: nat, b: byte) returns (call: Callee)
    requires vm.Valid() && IoRegister(a)
    modifies vm.MEM, vm`joypadSelectedMode
    ensures vm.Valid()
    ensures Written(vm.Bus(), call) ==
              if A_DIV <= a <= A_TAC then TimerWrite(old(vm.Bus()), vm.clock, a, b)
              else OtherIoWrite(old(vm.Bus()), vm.Locks(), a, b)
  {
    vm.BusOfValid();
    if a == A_TAC {
      var newTAC := b | 0xF8;
      call := SyncTimer(GbBus.TacGlitch(vm.MEM[A_TAC], newTAC, vm.clock));
      vm.MEM[a] := newTAC;
    } else if a == A_DIV {
      call := SyncTimer(vm.MEM[A_DIV] == 1 && GbTimer.TimerEnabled(vm.MEM[A_TAC]));
      vm.MEM[a] := 0;
    } else if a == A_TIMA || a == A_TMA {
      call := SyncTimer(false);
      vm.MEM[a] := b;
    } else if a == A_P1 {
      var v := JoypadWriteAsWritten(vm.MEM[a], b);
      vm.joypadSelectedMode := (v >> 4) & 3;
      vm.MEM[a] := v;
      call := UpdateJoypad((v >> 4) & 3);
    } else if a == A_SVBK {
      call := SwitchWram(vm.MEM[a] & 7, if b & 7 == 0 then 1 else b & 7);
      vm.MEM[a] := b | 0xF8;
    } else if a == A_VBK {
      call := SwitchVram(vm.MEM[a] & 1, b & 1);
      vm.MEM[a] := b | 0xFE;
    } else if Palette(a) && vm.lockPalettes {
      call := NoCall;
    } else {
      vm.MEM[a] := b;
      call := NoCall;
    }
  }
}
