// The CPU of the legacy emulator (src/cpu.c): opcode and operand fetches from the flat MEM,
// 16-bit register access on GPR, the stack, interrupt service, HALT and the dispatch loop
// body. cyclesSync_4 is not part of this model; each call of it advances `clock` by 4.

module VmCpu {
  import opened Bits
  import opened GbCart
  import opened VmBanks
  import opened VmState
  import opened VmMemory
  import GbState
  import GbCpu

  /** get_reg16 on the legacy register file: high byte at RR, low byte at RR + 1. */
  function GetReg16(vm: VM, rr: GbState.Reg16): word
    requires vm.GPR.Length == 10
    reads vm.GPR
  {
    GbState.Reg16Of(vm.GPR[..], rr)
  }

  /** set_reg16: only the two bytes of the pair change, and get_reg16 then returns v. */
  method SetReg16(vm: VM, rr: GbState.Reg16, v: word)
    requires vm.Valid()
    modifies vm.GPR
    ensures vm.Valid() && vm.Bus() == old(vm.Bus())
    ensures vm.GPR[..] == GbState.WithReg16(old(vm.GPR[..]), rr, v)
    ensures GetReg16(vm, rr) == v
  {
    vm.GPR[GbState.PairIndex(rr)] := Hi(v);
    vm.GPR[GbState.PairIndex(rr) + 1] := Lo(v);
    GbState.Reg16RoundTrip(old(vm.GPR[..]), rr, v);
  }

  /** One cyclesSync_4. */
  method Tick(vm: VM)
    requires vm.Valid()
    modifies vm`clock
    ensures vm.Valid() && vm.clock == old(vm.clock) + 4
  {
    vm.clock := vm.clock + 4;
  }

  /** PC := v. */
  method SetPC(vm: VM, v: word)
    requires vm.Valid()
    modifies vm`PC
    ensures vm.Valid() && vm.PC == v
  {
    vm.PC := v;
  }

  /** readByte: MEM[PC] (MEM itself, not readAddr), and PC moves on by one. */
  method ReadByte(vm: VM, ghost pc: word) returns (b: byte)
    requires vm.Valid() && pc == vm.PC
    modifies vm`PC
    ensures vm.Valid() && b == vm.MEM[WordNat(pc)] && vm.PC == pc + 1
  {
    var at := vm.PC;
    b := vm.MEM[WordNat(at)];
    SetPC(vm, at + 1);
  }

  /** readByte_4C: readByte and one tick. */
  method ReadByte4C(vm: VM, ghost pc: word, ghost clock0: nat) returns (b: byte)
    requires vm.Valid() && pc == vm.PC && clock0 == vm.clock
    modifies vm`PC, vm`clock
    ensures vm.Valid() && b == vm.MEM[WordNat(pc)] && vm.PC == pc + 1 && vm.clock == clock0 + 4
  {
    b := ReadByte(vm, pc);
    Tick(vm);
  }

  /** read2Bytes_8C: the low byte at PC, then the high byte at PC + 1, a tick after each. */
  method Read2Bytes8C(vm: VM, ghost pc: word, ghost clock0: nat) returns (v: word)
    requires vm.Valid() && pc == vm.PC && clock0 == vm.clock
    modifies vm`PC, vm`clock
    ensures vm.Valid() && vm.PC == pc + 2 && vm.clock == clock0 + 8
    ensures v == Join(vm.MEM[WordNat(pc + 1)], vm.MEM[WordNat(pc)])
  {
    var low := ReadByte4C(vm, pc, clock0);
    var high := ReadByte4C(vm, pc + 1, clock0 + 4);
    v := Join(high, low);
  }

  /** writeAddr_4C: the write, then a tick, so the write sees the clock before the tick. */
  method WriteAddr4C(vm: VM, addr: word, b: byte, ghost clock0: nat) returns (call: Callee)
    requires vm.Valid() && clock0 == vm.clock
    modifies vm.MEM, vm`joypadSelectedMode, vm.MbcRepr(), vm`clock
    ensures vm.Valid() && vm.clock == clock0 + 4
    ensures Written(vm.Bus(), call) == Write(old(vm.Bus()), vm.Locks(), clock0, vm.Rom(), vm.RomSize(), addr, b)
  {
    call := WriteAddr(vm, addr, b);
    Tick(vm);
  }

  /** push16: the high byte at SP - 1, the low byte at SP - 2, each through writeAddr_4C, and
   *  SP -= 2. `top` is SP before the push and `mid` the bus between the two writes. SP is stored first here; no write reads
   *  the register file, so the order does not show. */
  method Push16(vm: VM, v: word, ghost clock0: nat, ghost bus0: BusState)
    returns (top: word, c1: Callee, c2: Callee, ghost mid: BusState)
    requires vm.Valid() && clock0 == vm.clock && bus0 == vm.Bus()
    modifies vm.MEM, vm`joypadSelectedMode, vm.MbcRepr(), vm`clock, vm.GPR
    ensures vm.Valid() && vm.clock == clock0 + 8
    ensures top == GbState.Reg16Of(old(vm.GPR[..]), GbState.SP)
    ensures BusValid(bus0) && BusValid(mid)
    ensures Written(mid, c1) == Write(bus0, vm.Locks(), clock0, vm.Rom(), vm.RomSize(), top - 1, Hi(v))
    ensures Written(vm.Bus(), c2) == Write(mid, vm.Locks(), clock0 + 4, vm.Rom(), vm.RomSize(), top - 2, Lo(v))
    ensures vm.GPR[..] == GbState.WithReg16(old(vm.GPR[..]), GbState.SP, top - 2)
  {
    top := GetReg16(vm, GbState.SP);
    SetReg16(vm, GbState.SP, top - 2);
    c1, c2, mid := PushBytes(vm, top, v, clock0, bus0);
  }

  /** The two stores of push16. */
  method PushBytes(vm: VM, top: word, v: word, ghost clock0: nat, ghost bus0: BusState)
    returns (c1: Callee, c2: Callee, ghost mid: BusState)
    requires vm.Valid() && clock0 == vm.clock && bus0 == vm.Bus()
    modifies vm.MEM, vm`joypadSelectedMode, vm.MbcRepr(), vm`clock
    ensures vm.Valid() && vm.clock == clock0 + 8
    ensures BusValid(bus0) && BusValid(mid)
    ensures Written(mid, c1) == Write(bus0, vm.Locks(), clock0, vm.Rom(), vm.RomSize(), top - 1, Hi(v))
    ensures Written(vm.Bus(), c2) == Write(mid, vm.Locks(), clock0 + 4, vm.Rom(), vm.RomSize(), top - 2, Lo(v))
  {
    vm.BusOfValid();
    c1 := WriteAddr4C(vm, top - 1, Hi(v), clock0);
    mid := vm.Bus();
    c2 := WriteAddr4C(vm, top - 2, Lo(v), clock0 + 4);
  }

  /** When both stack bytes are ordinary memory, a push leaves v on top of the stack, high byte
   *  above low byte, and changes nothing else. */
  lemma {:induction false} PushToPlainStack(bus: BusState, locks: LockFlags, clock: nat, rom: seq<byte>, romSize: byte,
                                            sp: word, v: word, mid: BusState, after: BusState)
    requires BusValid(bus)
    requires StoresVerbatim(locks, WordNat(sp - 1)) && StoresVerbatim(locks, WordNat(sp - 2))
    requires mid == Write(bus, locks, clock, rom, romSize, sp - 1, Hi(v)).bus
    requires after == Write(mid, locks, clock + 4, rom, romSize, sp - 2, Lo(v)).bus
    ensures after == bus.(mem := bus.mem[WordNat(sp - 1) := Hi(v)][WordNat(sp - 2) := Lo(v)])
    ensures Join(after.mem[WordNat(sp - 1)], after.mem[WordNat(sp - 2)]) == v
  {
    assert mid == bus.(mem := bus.mem[WordNat(sp - 1) := Hi(v)]) by {
      ReadAfterWrite(bus, locks, clock, rom, romSize, sp - 1, Hi(v));
    }
    assert after == mid.(mem := mid.mem[WordNat(sp - 2) := Lo(v)]) by {
      ReadAfterWrite(mid, locks, clock + 4, rom, romSize, sp - 2, Lo(v));
    }
    StackBytes(bus, WordNat(sp - 1), WordNat(sp - 2), sp, v, after);
  }

  /** The two bytes of a push read back as the pushed word. */
  lemma StackBytes(bus: BusState, hiAt: nat, loAt: nat, sp: word, v: word, after: BusState)
    requires BusValid(bus) && hiAt == WordNat(sp - 1) && loAt == WordNat(sp - 2)
    requires after == bus.(mem := bus.mem[hiAt := Hi(v)][loAt := Lo(v)])
    ensures Join(after.mem[hiAt], after.mem[loAt]) == v
  {
    WordNatInjective(sp - 1, sp - 2);
    JoinHiLo(v);
  }

  /** call: a tick, PC pushed, PC := addr. */
  method Call(vm: VM, addr: word, ghost pc: word, ghost clock0: nat, ghost bus0: BusState)
    returns (top: word, c1: Callee, c2: Callee, ghost mid: BusState)
    requires vm.Valid() && pc == vm.PC && clock0 == vm.clock && bus0 == vm.Bus()
    modifies vm.MEM, vm`joypadSelectedMode, vm.MbcRepr(), vm`clock, vm.GPR, vm`PC
    ensures vm.Valid() && vm.clock == clock0 + 12 && vm.PC == addr
    ensures top == GbState.Reg16Of(old(vm.GPR[..]), GbState.SP)
    ensures BusValid(bus0) && BusValid(mid)
    ensures Written(mid, c1) == Write(bus0, vm.Locks(), clock0 + 4, vm.Rom(), vm.RomSize(), top - 1, Hi(pc))
    ensures Written(vm.Bus(), c2) == Write(mid, vm.Locks(), clock0 + 8, vm.Rom(), vm.RomSize(), top - 2, Lo(pc))
    ensures vm.GPR[..] == GbState.WithReg16(old(vm.GPR[..]), GbState.SP, top - 2)
  {
    Tick(vm);
    top, c1, c2, mid := Push16(vm, vm.PC, clock0 + 4, bus0);
    SetPC(vm, addr);
  }

  /** IME := v. */
  method SetIME(vm: VM, v: bool)
    requires vm.Valid()
    modifies vm`IME
    ensures vm.Valid() && vm.IME == v
  {
    vm.IME := v;
  }

  /** MEM[R_IF] &= ~(1 << i). */
  method ClearRequest(vm: VM, i: GbState.Interrupt)
    requires vm.Valid()
    modifies vm.MEM
    ensures vm.Valid()
    ensures vm.MEM[..] == old(vm.MEM[..])[A_IF := old(vm.MEM[A_IF]) & !GbState.InterruptMask(i)]
  {
    vm.MEM[A_IF] := vm.MEM[A_IF] & !GbState.InterruptMask(i);
  }

  /** IME := 0 and MEM[R_IF] &= ~(1 << i): the interrupt is taken off the bus state. */
  method Disable(vm: VM, i: GbState.Interrupt, ghost bus0: BusState) returns (ghost acked: BusState)
    requires vm.Valid() && bus0 == vm.Bus()
    modifies vm.MEM, vm`IME
    ensures vm.Valid() && !vm.IME && vm.clock == old(vm.clock)
    ensures BusValid(bus0) && acked == bus0.(mem := bus0.mem[A_IF := bus0.mem[A_IF] & !GbState.InterruptMask(i)])
    ensures vm.Bus() == acked && BusValid(acked)
  {
    vm.BusOfValid();
    SetIME(vm, false);
    ClearRequest(vm, i);
    acked := vm.Bus();
  }

  /** dispatchInterrupt before the call: IME cleared, the interrupt's IF bit cleared in MEM (a
   *  direct store, not writeAddr), two ticks. */
  method Acknowledge(vm: VM, i: GbState.Interrupt, ghost clock0: nat, ghost bus0: BusState) returns (ghost acked: BusState)
    requires vm.Valid() && clock0 == vm.clock && bus0 == vm.Bus()
    modifies vm.MEM, vm`IME, vm`clock
    ensures vm.Valid() && !vm.IME && vm.clock == clock0 + 8
    ensures BusValid(bus0) && acked == bus0.(mem := bus0.mem[A_IF := bus0.mem[A_IF] & !GbState.InterruptMask(i)])
    ensures vm.Bus() == acked && BusValid(acked)
  {
    acked := Disable(vm, i, bus0);
    Tick(vm);
    Tick(vm);
  }

  /** dispatchInterrupt: acknowledge, then call the interrupt's vector 0x40 + 8i. */
  method DispatchInterrupt(vm: VM, i: GbState.Interrupt, ghost pc: word, ghost clock0: nat, ghost bus0: BusState)
    returns (top: word, c1: Callee, c2: Callee, ghost acked: BusState, ghost mid: BusState)
    requires vm.Valid() && pc == vm.PC && clock0 == vm.clock && bus0 == vm.Bus()
    modifies vm.MEM, vm`joypadSelectedMode, vm.MbcRepr(), vm`clock, vm.GPR, vm`PC, vm`IME
    ensures vm.Valid() && !vm.IME && vm.clock == clock0 + 20 && vm.PC == GbCpu.InterruptVector(i)
    ensures top == GbState.Reg16Of(old(vm.GPR[..]), GbState.SP)
    ensures BusValid(bus0) && acked == bus0.(mem := bus0.mem[A_IF := bus0.mem[A_IF] & !GbState.InterruptMask(i)])
    ensures BusValid(acked) && BusValid(mid)
    ensures Written(mid, c1) == Write(acked, vm.Locks(), clock0 + 12, vm.Rom(), vm.RomSize(), top - 1, Hi(pc))
    ensures Written(vm.Bus(), c2) == Write(mid, vm.Locks(), clock0 + 16, vm.Rom(), vm.RomSize(), top - 2, Lo(pc))
    ensures vm.GPR[..] == GbState.WithReg16(old(vm.GPR[..]), GbState.SP, top - 2)
  {
    acked := Acknowledge(vm, i, clock0, bus0);
    top, c1, c2, mid := Call(vm, GbCpu.InterruptVector(i), pc, clock0 + 8, acked);
  }

  /** The outcome of handleInterrupts: the interrupt serviced, if any, and the calls its push
   *  made. */
  datatype Service = NotServiced | Serviced(i: GbState.Interrupt, high: Callee, low: Callee)

  /** What dispatchInterrupt did for the serviced interrupt s.i, with the bus `bus0`, the clock
   *  `clock0`, PC `pc` and SP `top` before it: IME clear, 20 cycles, PC at the vector, the IF
   *  bit cleared, then the two pushes of pc, and SP lowered by two. */
  ghost predicate InterruptDispatched(s: Service, pc: word, top: word, clock0: nat, bus0: BusState, acked: BusState,
                                      mid: BusState, locks: LockFlags, rom: seq<byte>, romSize: byte,
                                      after: BusState, clock: nat, newPC: word, ime: bool, gpr0: seq<byte>, gpr: seq<byte>)
  {
    s.Serviced? && BusValid(bus0) && BusValid(acked) && BusValid(mid) && |gpr0| == 10 &&
    !ime && clock == clock0 + 20 && newPC == GbCpu.InterruptVector(s.i) &&
    acked == bus0.(mem := bus0.mem[A_IF := bus0.mem[A_IF] & !GbState.InterruptMask(s.i)]) &&
    Written(mid, s.high) == Write(acked, locks, clock0 + 12, rom, romSize, top - 1, Hi(pc)) &&
    Written(after, s.low) == Write(mid, locks, clock0 + 16, rom, romSize, top - 2, Lo(pc)) &&
    gpr == GbState.WithReg16(gpr0, GbState.SP, top - 2)
  }

  /** handleInterrupts over MEM[IF] and MEM[IE]. With nothing both requested and enabled nothing
   *  changes. Otherwise halt mode ends, and with IME set the pending interrupt of highest
   *  priority is dispatched. */
  method HandleInterrupts(vm: VM, ghost pc: word, ghost clock0: nat, ghost bus0: BusState,
                          ghost ime0: bool, ghost halt0: bool, ghost ie: byte, ghost iflag: byte)
    returns (s: Service, top: word, ghost acked: BusState, ghost mid: BusState)
    requires vm.Valid() && pc == vm.PC && clock0 == vm.clock && bus0 == vm.Bus()
    requires ime0 == vm.IME && halt0 == vm.haltMode && ie == vm.MEM[A_IE] && iflag == vm.MEM[A_IF]
    modifies vm.MEM, vm`joypadSelectedMode, vm.MbcRepr(), vm`clock, vm.GPR, vm`PC, vm`IME, vm`haltMode
    ensures vm.Valid() && BusValid(bus0)
    ensures top == GbState.Reg16Of(old(vm.GPR[..]), GbState.SP)
    ensures vm.haltMode == (halt0 && GbCpu.PendingMask(ie, iflag) == 0)
    ensures s.Serviced? <==> ime0 && GbCpu.PendingMask(ie, iflag) != 0
    ensures s.NotServiced? ==>
              vm.PC == pc && vm.IME == ime0 && vm.clock == clock0 && vm.Bus() == bus0 && vm.GPR[..] == old(vm.GPR[..])
    ensures s.Serviced? ==>
              s.i == GbCpu.ServicedInterrupt(ie, iflag) &&
              InterruptDispatched(s, pc, top, clock0, bus0, acked, mid, vm.Locks(), vm.Rom(), vm.RomSize(),
                                  vm.Bus(), vm.clock, vm.PC, vm.IME, old(vm.GPR[..]), vm.GPR[..])
  {
    vm.BusOfValid();
    s, acked, mid := NotServiced, bus0, bus0;
    top := GetReg16(vm, GbState.SP);
    var requested := vm.MEM[A_IF];
    var enabled := vm.MEM[A_IE];
    if GbCpu.PendingMask(enabled, requested) != 0 {
      if vm.IME {
        s, top, acked, mid := ServiceHighest(vm, pc, clock0, bus0, ie, iflag);
      } else {
        SetHaltMode(vm, false);
      }
    }
  }

  /** haltMode := v. */
  method SetHaltMode(vm: VM, v: bool)
    requires vm.Valid()
    modifies vm`haltMode
    ensures vm.Valid() && vm.haltMode == v
  {
    vm.haltMode := v;
  }

  /** The IME branch of handleInterrupts: halt mode ends, the priority loop runs, then
   *  dispatchInterrupt. */
  method ServiceHighest(vm: VM, ghost pc: word, ghost clock0: nat, ghost bus0: BusState, ghost ie: byte, ghost iflag: byte)
    returns (s: Service, top: word, ghost acked: BusState, ghost mid: BusState)
    requires vm.Valid() && pc == vm.PC && clock0 == vm.clock && bus0 == vm.Bus()
    requires ie == vm.MEM[A_IE] && iflag == vm.MEM[A_IF] && GbCpu.PendingMask(ie, iflag) != 0
    modifies vm.MEM, vm`joypadSelectedMode, vm.MbcRepr(), vm`clock, vm.GPR, vm`PC, vm`IME, vm`haltMode
    ensures vm.Valid() && BusValid(bus0) && !vm.haltMode
    ensures top == GbState.Reg16Of(old(vm.GPR[..]), GbState.SP)
    ensures s.Serviced? && s.i == GbCpu.ServicedInterrupt(ie, iflag)
    ensures InterruptDispatched(s, pc, top, clock0, bus0, acked, mid, vm.Locks(), vm.Rom(), vm.RomSize(),
                                vm.Bus(), vm.clock, vm.PC, vm.IME, old(vm.GPR[..]), vm.GPR[..])
  {
    SetHaltMode(vm, false);
    var n := GbCpu.HighestPriority(vm.MEM[A_IF], vm.MEM[A_IE]);
    GbCpu.FirstPendingFound(GbCpu.PendingMask(ie, iflag));
    var i := GbCpu.InterruptAt(n);
    var c1, c2;
    top, c1, c2, acked, mid := DispatchInterrupt(vm, i, pc, clock0, bus0);
    s := Serviced(i, c1, c2);
  }

  /** halt: with nothing pending the CPU sleeps; with something pending it carries on, and when
   *  IME is clear that is the halt bug. Neither flag is ever cleared here. */
  method Halt(vm: VM)
    requires vm.Valid()
    modifies vm`haltMode, vm`scheduleHaltBug
    ensures vm.Valid()
    ensures vm.haltMode == (old(vm.haltMode) ||
              GbCpu.HaltOutcome(vm.IME, GbCpu.PendingMask(vm.MEM[A_IE], vm.MEM[A_IF])) == GbCpu.EnterHalt)
    ensures vm.scheduleHaltBug == (old(vm.scheduleHaltBug) ||
              GbCpu.HaltOutcome(vm.IME, GbCpu.PendingMask(vm.MEM[A_IE], vm.MEM[A_IF])) == GbCpu.ScheduleHaltBug)
  {
    var pending := GbCpu.PendingMask(vm.MEM[A_IE], vm.MEM[A_IF]);
    if vm.IME {
      if pending == 0 {
        vm.haltMode := true;
      }
    } else {
      if pending == 0 {
        vm.haltMode := true;
      } else {
        vm.scheduleHaltBug := true;
      }
    }
  }

  /** A scheduled EI takes effect: IME set, the schedule cleared. */
  method TakeScheduledEnable(vm: VM)
    requires vm.Valid()
    modifies vm`IME, vm`scheduleInterruptEnable
    ensures vm.Valid() && vm.IME && !vm.scheduleInterruptEnable
  {
    vm.scheduleInterruptEnable := false;
    vm.IME := true;
  }

  /** The start of dispatch: a scheduled EI takes effect; in halt mode one tick passes and no
   *  opcode is fetched; under the halt bug the opcode is read without moving PC; otherwise it
   *  is fetched with readByte_4C. */
  method Fetch(vm: VM, ghost pc: word, ghost clock0: nat) returns (op: Option<byte>)
    requires vm.Valid() && pc == vm.PC && clock0 == vm.clock
    modifies vm`PC, vm`clock, vm`IME, vm`scheduleInterruptEnable
    ensures vm.Valid() && vm.clock == clock0 + 4
    ensures vm.IME == (old(vm.IME) || old(vm.scheduleInterruptEnable)) && !vm.scheduleInterruptEnable
    ensures op == None <==> vm.haltMode
    ensures op.Some? ==> op.value == vm.MEM[WordNat(pc)]
    ensures vm.PC == (if op.Some? && !vm.scheduleHaltBug then pc + 1 else pc)
  {
    if vm.scheduleInterruptEnable {
      TakeScheduledEnable(vm);
    }
    if vm.haltMode {
      Tick(vm);
      op := None;
    } else if vm.scheduleHaltBug {
      var b := ReadByte(vm, pc);
      SetPC(vm, vm.PC - 1);
      Tick(vm);
      op := Some(b);
    } else {
      var b := ReadByte4C(vm, pc, clock0);
      op := Some(b);
    }
  }

  /** The opcodes that only touch the CPU flags: NOP, STOP, HALT, DI and EI. */
  predicate ControlOpcode(op: byte)
  {
    op == 0x00 || op == 0x10 || op == 0x76 || op == 0xF3 || op == 0xFB
  }

  /** NOP and STOP (whose own handling is a TODO in the source) change nothing; HALT runs halt;
   *  DI clears IME at once; EI only schedules IME for the next dispatch. */
  method ExecuteControl(vm: VM, op: byte)
    requires vm.Valid() && ControlOpcode(op)
    modifies vm`haltMode, vm`scheduleHaltBug, vm`IME, vm`scheduleInterruptEnable
    ensures vm.Valid()
    ensures op == 0x00 || op == 0x10 ==>
              vm.IME == old(vm.IME) && vm.haltMode == old(vm.haltMode) &&
              vm.scheduleHaltBug == old(vm.scheduleHaltBug) && vm.scheduleInterruptEnable == old(vm.scheduleInterruptEnable)
    ensures op == 0x76 ==>
              vm.IME == old(vm.IME) && vm.scheduleInterruptEnable == old(vm.scheduleInterruptEnable) &&
              vm.haltMode == (old(vm.haltMode) ||
                GbCpu.HaltOutcome(vm.IME, GbCpu.PendingMask(vm.MEM[A_IE], vm.MEM[A_IF])) == GbCpu.EnterHalt) &&
              vm.scheduleHaltBug == (old(vm.scheduleHaltBug) ||
                GbCpu.HaltOutcome(vm.IME, GbCpu.PendingMask(vm.MEM[A_IE], vm.MEM[A_IF])) == GbCpu.ScheduleHaltBug)
    ensures op == 0xF3 ==>
              !vm.IME && vm.haltMode == old(vm.haltMode) && vm.scheduleHaltBug == old(vm.scheduleHaltBug) &&
              vm.scheduleInterruptEnable == old(vm.scheduleInterruptEnable)
    ensures op == 0xFB ==>
              vm.IME == old(vm.IME) && vm.haltMode == old(vm.haltMode) && vm.scheduleHaltBug == old(vm.scheduleHaltBug) &&
              vm.scheduleInterruptEnable
  {
    if op == 0x76 {
      Halt(vm);
    } else if op == 0xF3 {
      vm.IME := false;
    } else if op == 0xFB {
      vm.scheduleInterruptEnable := true;
    }
  }

  /** RST n: opcodes 0xC7, 0xCF, ..., 0xFF call 0x00, 0x08, ..., 0x38. */
  predicate RstOpcode(op: byte)
  {
    op & 0xC7 == 0xC7
  }

  /** The RST target: bits 3-5 of the opcode times 8. */
  function RstTarget(op: byte): (t: word)
    requires RstOpcode(op)
    ensures WordNat(t) == 8 * ByteNat((op >> 3) & 7) && WordNat(t) <= 0x38
  {
    var k := (op >> 3) & 7;
    if k == 0 then 0x00 else if k == 1 then 0x08 else if k == 2 then 0x10 else if k == 3 then 0x18
    else if k == 4 then 0x20 else if k == 5 then 0x28 else if k == 6 then 0x30 else 0x38
  }

  /** PUSH rr: opcodes 0xC5, 0xD5, 0xE5 and 0xF5 push BC, DE, HL and AF. */
  predicate PushOpcode(op: byte)
  {
    op == 0xC5 || op == 0xD5 || op == 0xE5 || op == 0xF5
  }

  function PushedPair(op: byte): GbState.Reg16
    requires PushOpcode(op)
  {
    if op == 0xC5 then GbState.BC else if op == 0xD5 then GbState.DE else if op == 0xE5 then GbState.HL else GbState.AF
  }

  /** RST n: call n. */
  method ExecuteRst(vm: VM, op: byte, ghost pc: word, ghost clock0: nat, ghost bus0: BusState)
    returns (top: word, c1: Callee, c2: Callee, ghost mid: BusState)
    requires vm.Valid() && RstOpcode(op)
    requires pc == vm.PC && clock0 == vm.clock && bus0 == vm.Bus()
    modifies vm.MEM, vm`joypadSelectedMode, vm.MbcRepr(), vm`clock, vm.GPR, vm`PC
    ensures vm.Valid() && vm.clock == clock0 + 12 && vm.PC == RstTarget(op)
    ensures top == GbState.Reg16Of(old(vm.GPR[..]), GbState.SP)
    ensures BusValid(bus0) && BusValid(mid)
    ensures Written(mid, c1) == Write(bus0, vm.Locks(), clock0 + 4, vm.Rom(), vm.RomSize(), top - 1, Hi(pc))
    ensures Written(vm.Bus(), c2) == Write(mid, vm.Locks(), clock0 + 8, vm.Rom(), vm.RomSize(), top - 2, Lo(pc))
    ensures vm.GPR[..] == GbState.WithReg16(old(vm.GPR[..]), GbState.SP, top - 2)
  {
    top, c1, c2, mid := Call(vm, RstTarget(op), pc, clock0, bus0);
  }

  /** PUSH rr: a tick, then push16 of the pair. */
  method ExecutePush(vm: VM, op: byte, ghost clock0: nat, ghost bus0: BusState)
    returns (top: word, c1: Callee, c2: Callee, v: word, ghost mid: BusState)
    requires vm.Valid() && PushOpcode(op)
    requires clock0 == vm.clock && bus0 == vm.Bus()
    modifies vm.MEM, vm`joypadSelectedMode, vm.MbcRepr(), vm`clock, vm.GPR
    ensures vm.Valid() && vm.clock == clock0 + 12
    ensures top == GbState.Reg16Of(old(vm.GPR[..]), GbState.SP)
    ensures v == GbState.Reg16Of(old(vm.GPR[..]), PushedPair(op))
    ensures BusValid(bus0) && BusValid(mid)
    ensures Written(mid, c1) == Write(bus0, vm.Locks(), clock0 + 4, vm.Rom(), vm.RomSize(), top - 1, Hi(v))
    ensures Written(vm.Bus(), c2) == Write(mid, vm.Locks(), clock0 + 8, vm.Rom(), vm.RomSize(), top - 2, Lo(v))
    ensures vm.GPR[..] == GbState.WithReg16(old(vm.GPR[..]), GbState.SP, top - 2)
  {
    Tick(vm);
    v := GetReg16(vm, PushedPair(op));
    top, c1, c2, mid := Push16(vm, v, clock0 + 4, bus0);
  }

  /** CALL a16: the target read with read2Bytes_8C, then call; the pushed PC is the one after
   *  the operand. */
  method ExecuteCall(vm: VM, ghost pc: word, ghost clock0: nat, ghost bus0: BusState)
    returns (top: word, c1: Callee, c2: Callee, target: word, ghost mid: BusState)
    requires vm.Valid() && pc == vm.PC && clock0 == vm.clock && bus0 == vm.Bus()
    modifies vm.MEM, vm`joypadSelectedMode, vm.MbcRepr(), vm`clock, vm.GPR, vm`PC
    ensures vm.Valid() && vm.clock == clock0 + 20 && vm.PC == target
    ensures top == GbState.Reg16Of(old(vm.GPR[..]), GbState.SP)
    ensures target == Join(bus0.mem[WordNat(pc + 1)], bus0.mem[WordNat(pc)])
    ensures BusValid(bus0) && BusValid(mid)
    ensures Written(mid, c1) == Write(bus0, vm.Locks(), clock0 + 12, vm.Rom(), vm.RomSize(), top - 1, Hi(pc + 2))
    ensures Written(vm.Bus(), c2) == Write(mid, vm.Locks(), clock0 + 16, vm.Rom(), vm.RomSize(), top - 2, Lo(pc + 2))
    ensures vm.GPR[..] == GbState.WithReg16(old(vm.GPR[..]), GbState.SP, top - 2)
  {
    ghost var gpr0 := vm.GPR[..];
    target := Read2Bytes8C(vm, pc, clock0);
    ghost var next := vm.PC;
    assert vm.Bus() == bus0 && vm.GPR[..] == gpr0;
    top, c1, c2, mid := Call(vm, target, next, clock0 + 8, bus0);
  }

  /** The opcodes this model executes: the control opcodes, RST, PUSH and CALL a16. */
  predicate Modelled(op: byte)
  {
    ControlOpcode(op) || RstOpcode(op) || PushOpcode(op) || op == 0xCD
  }

  /** RST, PUSH and CALL. */
  method ExecuteStack(vm: VM, op: byte)
    requires vm.Valid() && (RstOpcode(op) || PushOpcode(op) || op == 0xCD)
    modifies vm.MEM, vm`joypadSelectedMode, vm.MbcRepr(), vm`clock, vm.GPR, vm`PC
    ensures vm.Valid()
  {
    if RstOpcode(op) {
      var _, _, _, _ := ExecuteRst(vm, op, vm.PC, vm.clock, vm.Bus());
    } else if PushOpcode(op) {
      var _, _, _, _, _ := ExecutePush(vm, op, vm.clock, vm.Bus());
    } else {
      var _, _, _, _, _ := ExecuteCall(vm, vm.PC, vm.clock, vm.Bus());
    }
  }

  /** One pass of dispatch: the fetch (or the halted tick), the instruction, the syncTimer
   *  call (reported in `sync`), then handleInterrupts. An opcode outside the modelled set ends
   *  the pass right after its fetch with `modelled` false. */
  method Dispatch(vm: VM, ghost pc: word, ghost halt0: bool, ghost bug0: bool)
    returns (op: Option<byte>, modelled: bool, sync: Callee)
    requires vm.Valid() && pc == vm.PC && halt0 == vm.haltMode && bug0 == vm.scheduleHaltBug
    modifies vm.MEM, vm`joypadSelectedMode, vm.MbcRepr(), vm`clock, vm.GPR, vm`PC, vm`IME
    modifies vm`haltMode, vm`scheduleHaltBug, vm`scheduleInterruptEnable
    ensures vm.Valid()
    ensures op == None <==> halt0
    ensures op.Some? ==> op.value == old(vm.MEM[WordNat(pc)])
    ensures modelled <==> op == None || Modelled(op.value)
    ensures bug0 ==> vm.scheduleHaltBug
    ensures sync == (if modelled then SyncTimer(false) else NoCall)
  {
    sync := NoCall;
    op := Fetch(vm, pc, vm.clock);
    modelled := op == None || Modelled(op.value);
    if !modelled {
      return;
    }
    if op.Some? {
      if ControlOpcode(op.value) {
        ExecuteControl(vm, op.value);
      } else {
        ExecuteStack(vm, op.value);
      }
    }
    sync := SyncTimer(false);
    var _, _, _, _ := HandleInterrupts(vm, vm.PC, vm.clock, vm.Bus(), vm.IME, vm.haltMode, vm.MEM[A_IE], vm.MEM[A_IF]);
  }
}
