// Start-up of the legacy emulator (src/vm.c, src/mbc.c mbc_allocate): the boot checks, the
// 32 KiB ROM mapping, the choice of memory controller, and startEmulator's sequence up to the
// run loop.

module VmBoot {
  import opened Bits
  import opened GbCart
  import opened VmBanks
  import opened VmState
  import BootCheck
  import VmMbc1
  import GbMbc1
  import VmCartridge
  import VmCpu

  /** The cartridge as the boot checks read it: the image and the decoded header fields. */
  function CartOf(image: seq<byte>, h: VmCartridge.Header): Cart
  {
    Cart(image, h.cType, h.romSize, h.extRamSize, h.headerChecksum, h.logoChecksum, h.cgbCode)
  }

  /** The 0x8000 bytes bootROM copies to MEM[0x0000]. */
  function BootImage(rom: seq<byte>): (w: seq<byte>)
    ensures |w| == 2 * BANK_SIZE
  {
    ImageWindow(rom, 0, 2 * BANK_SIZE)
  }

  /** After the boot mapping, 0000-3FFF hold bank 0, 4000-7FFF bank 1, and the rest of MEM is
   *  as before; a cartridge of at least 32 KiB is copied verbatim. */
  lemma BootMapsFirstTwoBanks(before: seq<byte>, rom: seq<byte>)
    requires |before| == MEM_SIZE
    ensures Load(before, 0, BootImage(rom))[..BANK_SIZE] == BankImage(rom, 0)
    ensures Load(before, 0, BootImage(rom))[BANK_SIZE..2 * BANK_SIZE] == BankImage(rom, 1)
    ensures Load(before, 0, BootImage(rom))[2 * BANK_SIZE..] == before[2 * BANK_SIZE..]
    ensures |rom| >= 2 * BANK_SIZE ==> Load(before, 0, BootImage(rom))[..2 * BANK_SIZE] == rom[..2 * BANK_SIZE]
  {
    var after := Load(before, 0, BootImage(rom));
    BanksConcatenate(rom);
    LoadInside(before, 0, BootImage(rom));
    assert after[..2 * BANK_SIZE] == BankImage(rom, 0) + BankImage(rom, 1);
    assert after[..BANK_SIZE] == after[..2 * BANK_SIZE][..BANK_SIZE];
    assert after[BANK_SIZE..2 * BANK_SIZE] == after[..2 * BANK_SIZE][BANK_SIZE..];
    LoadOutside(before, 0, BootImage(rom), 2 * BANK_SIZE, MEM_SIZE);
    if |rom| >= 2 * BANK_SIZE {
      BankImageInside(rom, 0);
      BankImageInside(rom, 1);
      assert rom[..2 * BANK_SIZE] == rom[0..BANK_SIZE] + rom[BANK_SIZE..2 * BANK_SIZE];
    }
  }

  /** bootROM: the logo and header checksum checks (log_fatal on either, leaving MEM alone),
   *  then the first 32 KiB of the cartridge copied to MEM[0x0000]. */
  method BootROM(vm: VM) returns (v: BootCheck.Verdict)
    requires vm.Valid() && vm.cartridge != null
    modifies vm.MEM
    ensures vm.Valid()
    ensures v == BootCheck.Check(CartOf(vm.cartridge.image, vm.cartridge.header))
    ensures v != BootCheck.Verified ==> vm.MEM[..] == old(vm.MEM[..])
    ensures v == BootCheck.Verified ==> vm.MEM[..] == Load(old(vm.MEM[..]), 0, BootImage(vm.cartridge.image))
  {
    v := BootCheck.BootChecks(CartOf(vm.cartridge.image, vm.cartridge.header));
    if v == BootCheck.Verified {
      Copy(vm.MEM, 0, BootImage(vm.cartridge.image));
    }
  }

  /** The controller mbc_allocate picks for a cartridge type. */
  datatype MbcChoice = ChooseNone | ChooseMbc1(externalRam: bool) | ChooseMbc2 | Unsupported

  /** The cartridge type codes of include/cartridge.h mbc_allocate accepts. */
  function MbcFor(cType: byte): (c: MbcChoice)
    ensures c == Unsupported <==> cType !in {0x00, 0x01, 0x02, 0x03, 0x05, 0x06}
    ensures c.ChooseMbc1? <==> 0x01 <= cType <= 0x03
    ensures c.ChooseMbc1? ==> (c.externalRam <==> cType != 0x01)
    ensures c == ChooseMbc2 <==> cType == 0x05 || cType == 0x06
  {
    if cType == 0x00 then ChooseNone
    else if cType == 0x01 then ChooseMbc1(false)
    else if cType == 0x02 || cType == 0x03 then ChooseMbc1(true)
    else if cType == 0x05 || cType == 0x06 then ChooseMbc2
    else Unsupported
  }

  /** Whether mbc_allocate ends without log_fatal: a supported type, and for MBC1 with RAM a RAM
   *  size of 8 or 32 KiB. */
  predicate AllocationSucceeds(cType: byte, extRamSize: byte)
  {
    match MbcFor(cType)
    case Unsupported => false
    case ChooseMbc1(externalRam) => GbMbc1.RamAllocation(externalRam, extRamSize) != None
    case _ => true
  }

  /** mbc_allocate. With no controller yet: none for type 0; an MBC1 in its initial state with
   *  bank 0 mapped, with RAM exactly for the RAM types; the MBC2 route for types 5 and 6; and
   *  a fatal outcome, with nothing changed, for everything else. */
  method MbcAllocate(vm: VM) returns (ok: bool)
    requires vm.Valid() && vm.cartridge != null && vm.mbc == NoMbc
    modifies vm.MEM, vm`mbc
    ensures vm.Valid()
    ensures ok <==> AllocationSucceeds(vm.cartridge.header.cType, vm.cartridge.header.extRamSize)
    ensures !ok ==> vm.mbc == NoMbc && vm.MEM[..] == old(vm.MEM[..])
    ensures ok && MbcFor(vm.cartridge.header.cType) == ChooseNone ==>
              vm.mbc == NoMbc && vm.MEM[..] == old(vm.MEM[..])
    ensures ok && MbcFor(vm.cartridge.header.cType) == ChooseMbc2 ==>
              vm.mbc == Mbc2Ctl && vm.MEM[..] == old(vm.MEM[..])
    ensures ok && MbcFor(vm.cartridge.header.cType).ChooseMbc1? ==>
              vm.mbc.Mbc1Ctl? && fresh(vm.mbc.m) && vm.mbc.m.Regs() == VmMbc1.INITIAL &&
              (vm.mbc.m.ramBanks != null <==> MbcFor(vm.cartridge.header.cType).externalRam) &&
              vm.MEM[..] == Load(old(vm.MEM[..]), 0, BankImage(vm.cartridge.image, 0))
  {
    var choice := MbcFor(vm.cartridge.header.cType);
    match choice
    case ChooseNone =>
      ok := true;
    case ChooseMbc2 =>
      vm.mbc := Mbc2Ctl;
      ok := true;
    case Unsupported =>
      ok := false;
    case ChooseMbc1(externalRam) =>
      var m;
      ok, m := VmMbc1.Allocate(vm.MEM, vm.cartridge.image, vm.cartridge.header.extRamSize, externalRam);
      if ok {
        vm.mbc := Mbc1Ctl(m);
      }
  }

  /** How startEmulator ends before its run loop. */
  datatype Start = Running | BootFailed(verdict: BootCheck.Verdict) | NoController

  /** startEmulator up to the run loop: initVM, the cartridge inserted, bootROM, mbc_allocate,
   *  run := true. A log_fatal stops the sequence and the VM goes no further. */
  method StartEmulator(cartridge: VmCartridge.Cartridge) returns (vm: VM, s: Start)
    modifies cartridge
    ensures cartridge.inserted && cartridge.image == old(cartridge.image) && cartridge.header == old(cartridge.header)
    ensures fresh(vm.MEM) && fresh(vm.GPR) && vm.Valid() && vm.cartridge == cartridge
    ensures s == Running <==>
              BootCheck.Check(CartOf(cartridge.image, cartridge.header)) == BootCheck.Verified &&
              AllocationSucceeds(cartridge.header.cType, cartridge.header.extRamSize)
    ensures s.BootFailed? <==> BootCheck.Check(CartOf(cartridge.image, cartridge.header)) != BootCheck.Verified
    ensures vm.run <==> s == Running
    ensures vm.PC == 0x100 && vm.GPR[..] == RESET_GPR && !vm.IME
    ensures s == Running ==> vm.MEM[BANK_SIZE..2 * BANK_SIZE] == BankImage(cartridge.image, 1)
    ensures s == Running ==> vm.MEM[..BANK_SIZE] == BankImage(cartridge.image, 0)
    ensures s == Running ==> vm.MEM[0xFF00..0xFFFF] == ResetIO()
  {
    vm := new VM();
    vm.cartridge := cartridge;
    cartridge.inserted := true;
    ghost var reset := vm.MEM[..];
    var v := BootROM(vm);
    if v != BootCheck.Verified {
      return vm, BootFailed(v);
    }
    ghost var booted := vm.MEM[..];
    BootMapsFirstTwoBanks(reset, cartridge.image);
    var ok := MbcAllocate(vm);
    if !ok {
      return vm, NoController;
    }
    MappedAfterAllocation(reset, booted, vm.MEM[..], cartridge.image);
    vm.run := true;
    s := Running;
  }

  /** Whatever mbc_allocate does to MEM (nothing, or bank 0 copied again to 0000-3FFF), the
   *  boot mapping and the reset IO registers stay. */
  lemma MappedAfterAllocation(reset: seq<byte>, booted: seq<byte>, after: seq<byte>, rom: seq<byte>)
    requires |reset| == MEM_SIZE && booted == Load(reset, 0, BootImage(rom))
    requires after == booted || after == Load(booted, 0, BankImage(rom, 0))
    ensures after[..BANK_SIZE] == BankImage(rom, 0)
    ensures after[BANK_SIZE..2 * BANK_SIZE] == BankImage(rom, 1)
    ensures after[0xFF00..0xFFFF] == reset[0xFF00..0xFFFF]
  {
    BootMapsFirstTwoBanks(reset, rom);
    LoadOutside(reset, 0, BootImage(rom), 0xFF00, 0xFFFF);
    if after != booted {
      LoadInside(booted, 0, BankImage(rom, 0));
      LoadOutside(booted, 0, BankImage(rom, 0), BANK_SIZE, 2 * BANK_SIZE);
      LoadOutside(booted, 0, BankImage(rom, 0), 0xFF00, 0xFFFF);
    }
  }

  /** The number of passes of the run loop for a sequence of event polls: the loop stops after
   *  the pass whose poll asked to quit, and otherwise runs out with the polls. */
  function Passes(quits: seq<bool>): (n: nat)
    ensures n <= |quits| && (|quits| > 0 ==> n >= 1)
    ensures forall i :: 0 <= i < n - 1 ==> !quits[i]
    ensures n < |quits| ==> quits[n - 1]
  {
    if |quits| == 0 then 0 else if quits[0] then 1 else 1 + Passes(quits[1..])
  }

  /** The pass count is the position just after the first quit, or all the polls. */
  lemma {:induction false} PassesAtFirstQuit(quits: seq<bool>, n: nat)
    requires n <= |quits| && (|quits| > 0 ==> n >= 1)
    requires forall i :: 0 <= i < n - 1 ==> !quits[i]
    requires n < |quits| ==> quits[n - 1]
    ensures n == Passes(quits)
  {
    if |quits| > 0 && !quits[0] && n > 1 {
      var rest := quits[1..];
      forall i | 0 <= i < n - 2
        ensures !rest[i]
      {
        assert rest[i] == quits[i + 1];
      }
      if n - 1 < |rest| {
        assert rest[n - 2] == quits[n - 1];
      }
      PassesAtFirstQuit(rest, n - 1);
    }
  }

  /** One pass of the run loop: the poll, then dispatch. */
  method Pass(vm: VM, quit: bool)
    requires vm.Valid()
    modifies vm.MEM, vm`joypadSelectedMode, vm.MbcRepr(), vm`clock, vm.GPR, vm`PC, vm`IME
    modifies vm`haltMode, vm`scheduleHaltBug, vm`scheduleInterruptEnable, vm`run
    ensures vm.Valid() && vm.run == (old(vm.run) && !quit)
    ensures old(vm.scheduleHaltBug) ==> vm.scheduleHaltBug
  {
    if quit {
      vm.run := false;
    }
    var _, _, _ := VmCpu.Dispatch(vm, vm.PC, vm.haltMode, vm.scheduleHaltBug);
  }

  /** run: while `run` holds, the event poll and then one dispatch. handleSDLEvents is not part
   *  of this model; `quits[i]` says whether the i-th poll cleared `run` (the dispatch of that
   *  pass still happens). The loop is bounded by the polls given. */
  method Run(vm: VM, quits: seq<bool>) returns (passes: nat)
    requires vm.Valid() && vm.run
    modifies vm.MEM, vm`joypadSelectedMode, vm.MbcRepr(), vm`clock, vm.GPR, vm`PC, vm`IME
    modifies vm`haltMode, vm`scheduleHaltBug, vm`scheduleInterruptEnable, vm`run
    ensures vm.Valid()
    ensures passes == Passes(quits)
    ensures vm.run <==> forall i :: 0 <= i < |quits| ==> !quits[i]
    ensures old(vm.scheduleHaltBug) ==> vm.scheduleHaltBug
  {
    passes := 0;
    while vm.run && passes < |quits|
      invariant vm.Valid() && passes <= |quits|
      invariant vm.run <==> forall i :: 0 <= i < passes ==> !quits[i]
      invariant !vm.run ==> passes >= 1 && quits[passes - 1]
      invariant forall i :: 0 <= i < passes - 1 ==> !quits[i]
      invariant old(vm.scheduleHaltBug) ==> vm.scheduleHaltBug
      invariant vm.mbc == old(vm.mbc)
      decreases |quits| - passes
    {
      Pass(vm, quits[passes]);
      passes := passes + 1;
    }
    PassesAtFirstQuit(quits, passes);
  }
}
