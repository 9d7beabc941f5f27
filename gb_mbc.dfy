// The controller-type dispatch of gb/mbc.c: which controller a cartridge type gets, and the
// routing of ROM reads, external-RAM accesses and ROM-area writes to it.

module GbMbc {
  import opened Bits
  import opened GbCart
  import GbMbc1
  import GbMbc3
  import GbMbc5

  const CARTRIDGE_NONE: byte := 0x00
  const CARTRIDGE_MBC1: byte := 0x01
  const CARTRIDGE_MBC1_RAM: byte := 0x02
  const CARTRIDGE_MBC1_RAM_BATTERY: byte := 0x03
  const CARTRIDGE_MBC2: byte := 0x05
  const CARTRIDGE_MBC2_BATTERY: byte := 0x06
  const CARTRIDGE_MBC3_TIMER_BATTERY: byte := 0x0F
  const CARTRIDGE_MBC3_TIMER_RAM_BATTERY: byte := 0x10
  const CARTRIDGE_MBC3: byte := 0x11
  const CARTRIDGE_MBC3_RAM: byte := 0x12
  const CARTRIDGE_MBC3_RAM_BATTERY: byte := 0x13
  const CARTRIDGE_MBC5: byte := 0x19
  const CARTRIDGE_MBC5_RAM: byte := 0x1A
  const CARTRIDGE_MBC5_RAM_BATTERY: byte := 0x1B
  const CARTRIDGE_MBC5_RUMBLE: byte := 0x1C
  const CARTRIDGE_MBC5_RUMBLE_RAM: byte := 0x1D
  const CARTRIDGE_MBC5_RUMBLE_RAM_BATTERY: byte := 0x1E

  /** What mbc_allocate does for a cartridge type: the allocator it calls and its arguments. */
  datatype Plan =
    | NoController
    | UseMbc1(externalRam: bool)
    | UseMbc3(externalRam: bool, rtc: bool)
    | UseMbc5(externalRam: bool)
    | Unsupported

  /** The switch of mbc_allocate. The MBC2 cases are disabled in the source and fall through
   *  to the fatal default with every other unlisted type. */
  function AllocationPlan(cType: byte): Plan
  {
    if cType == CARTRIDGE_NONE then NoController
    else if cType == CARTRIDGE_MBC1 then UseMbc1(false)
    else if cType == CARTRIDGE_MBC1_RAM || cType == CARTRIDGE_MBC1_RAM_BATTERY then UseMbc1(true)
    else if cType == CARTRIDGE_MBC3 || cType == CARTRIDGE_MBC3_TIMER_BATTERY then UseMbc3(false, false)
    else if cType == CARTRIDGE_MBC3_RAM || cType == CARTRIDGE_MBC3_RAM_BATTERY ||
            cType == CARTRIDGE_MBC3_TIMER_RAM_BATTERY then UseMbc3(true, false)
    else if cType == CARTRIDGE_MBC5 || cType == CARTRIDGE_MBC5_RUMBLE then UseMbc5(false)
    else if cType == CARTRIDGE_MBC5_RAM || cType == CARTRIDGE_MBC5_RUMBLE_RAM ||
            cType == CARTRIDGE_MBC5_RAM_BATTERY || cType == CARTRIDGE_MBC5_RUMBLE_RAM_BATTERY then UseMbc5(true)
    else Unsupported
  }

  /** The cartridge types the emulator accepts, as a set independent of the switch. */
  function SupportedTypes(): set<byte>
  {
    {0x00, 0x01, 0x02, 0x03, 0x0F, 0x10, 0x11, 0x12, 0x13, 0x19, 0x1A, 0x1B, 0x1C, 0x1D, 0x1E}
  }

  /** A type is fatal exactly when it is not one of the supported ones; MBC2 is among the
   *  fatal ones. */
  lemma UnsupportedExactly(cType: byte)
    ensures AllocationPlan(cType) == Unsupported <==> cType !in SupportedTypes()
    ensures AllocationPlan(CARTRIDGE_MBC2) == Unsupported && AllocationPlan(CARTRIDGE_MBC2_BATTERY) == Unsupported
  {
  }

  /** Only the NONE type gets no controller; MBC1 gets external RAM only for its RAM types, and
   *  MBC3 is never given an RTC, the TIMER types included. */
  lemma PlanShapes(cType: byte)
    ensures AllocationPlan(cType) == NoController <==> cType == CARTRIDGE_NONE
    ensures AllocationPlan(cType).UseMbc1? ==>
              (AllocationPlan(cType).externalRam <==> cType == CARTRIDGE_MBC1_RAM || cType == CARTRIDGE_MBC1_RAM_BATTERY)
    ensures AllocationPlan(cType).UseMbc3? ==> !AllocationPlan(cType).rtc
    ensures cType == CARTRIDGE_MBC3_TIMER_BATTERY || cType == CARTRIDGE_MBC3_TIMER_RAM_BATTERY ==>
              AllocationPlan(cType).UseMbc3?
  {
  }

  /** `memController` together with `memControllerType`. */
  datatype Controller =
    | NoMbc
    | Mbc1Ctl(m1: GbMbc1.Mbc1)
    | Mbc3Ctl(m3: GbMbc3.Mbc3)
    | Mbc5Ctl(m5: GbMbc5.Mbc5)

  /** The objects a controller owns. */
  function Repr(c: Controller): set<object>
  {
    match c
    case NoMbc => {}
    case Mbc1Ctl(m) => if m.ramBanks == null then {m} else {m, m.ramBanks}
    case Mbc3Ctl(m) => if m.ramBanks == null then {m} else {m, m.ramBanks}
    case Mbc5Ctl(m) => if m.ramBanks == null then {m} else {m, m.ramBanks}
  }

  predicate Valid(c: Controller)
    reads Repr(c)
  {
    match c
    case NoMbc => true
    case Mbc1Ctl(m) => m.Valid()
    case Mbc3Ctl(m) => m.Valid()
    case Mbc5Ctl(m) => m.Valid()
  }

  /** Whether mbc_allocate gets through: a supported type whose controller accepts the
   *  cartridge's RAM size. */
  predicate Allocatable(cart: Cart)
  {
    match AllocationPlan(cart.cType)
    case NoController => true
    case UseMbc1(e) => GbMbc1.RamAllocation(e, cart.extRamSize) != None
    case UseMbc3(e, _) => GbMbc3.RamAllocation(e, cart.extRamSize) != None
    case UseMbc5(e) => GbMbc5.RamAllocation(e, cart.extRamSize) != None
    case Unsupported => false
  }

  /** mbc_allocate on a cartridge: `ok` is false in the fatal cases (an unsupported type, or an
   *  unsupported RAM size for the controller chosen). */
  method Allocate(cart: Cart) returns (ok: bool, c: Controller)
    ensures ok <==> Allocatable(cart)
    ensures ok ==> Valid(c) && fresh(Repr(c))
    ensures ok ==> match AllocationPlan(cart.cType)
                   case NoController => c.NoMbc?
                   case UseMbc1(_) => c.Mbc1Ctl?
                   case UseMbc3(_, _) => c.Mbc3Ctl?
                   case UseMbc5(_) => c.Mbc5Ctl?
                   case Unsupported => false
  {
    c := NoMbc;
    ok := true;
    match AllocationPlan(cart.cType)
    case NoController =>
    case UseMbc1(e) =>
      if GbMbc1.RamAllocation(e, cart.extRamSize) == None {
        ok := false;
      } else {
        var m := new GbMbc1.Mbc1(cart.romSize, cart.extRamSize, e);
        c := Mbc1Ctl(m);
      }
    case UseMbc3(e, rtc) =>
      if GbMbc3.RamAllocation(e, cart.extRamSize) == None {
        ok := false;
      } else {
        var m := new GbMbc3.Mbc3(cart.romSize, cart.extRamSize, e, rtc);
        c := Mbc3Ctl(m);
      }
    case UseMbc5(e) =>
      if GbMbc5.RamAllocation(e, cart.extRamSize) == None {
        ok := false;
      } else {
        var m := new GbMbc5.Mbc5(cart.romSize, cart.extRamSize, e);
        c := Mbc5Ctl(m);
      }
    case Unsupported =>
      ok := false;
  }

  /** mbc_readROM_N0: the controller's fixed window, 0xFF without a handler. */
  function ReadROM_N0(c: Controller, rom: seq<byte>, addr: word): (r: byte)
    reads Repr(c)
    ensures c.NoMbc? ==> r == 0xFF
  {
    match c
    case NoMbc => 0xFF
    case Mbc1Ctl(m) => m.ReadROM_N0(rom, addr)
    case Mbc3Ctl(m) => m.ReadROM_N0(rom, addr)
    case Mbc5Ctl(m) => m.ReadROM_N0(rom, addr)
  }

  /** mbc_readROM_NN: the controller's switchable window, 0xFF without a handler. */
  function ReadROM_NN(c: Controller, rom: seq<byte>, addr: word): (r: byte)
    reads Repr(c)
    ensures c.NoMbc? ==> r == 0xFF
  {
    match c
    case NoMbc => 0xFF
    case Mbc1Ctl(m) => m.ReadROM_NN(rom, addr)
    case Mbc3Ctl(m) => m.ReadROM_NN(rom, addr)
    case Mbc5Ctl(m) => m.ReadROM_NN(rom, addr)
  }

  /** The external RAM contents of a controller (empty without one). */
  function Ram(c: Controller): seq<byte>
    reads Repr(c)
  {
    match c
    case NoMbc => []
    case Mbc1Ctl(m) => m.Ram()
    case Mbc3Ctl(m) => m.Ram()
    case Mbc5Ctl(m) => m.Ram()
  }

  /** mbc_readExternalRAM: 0xFF without a controller (after a warning). */
  function ReadExternalRAM(c: Controller, addr: word): (r: byte)
    reads Repr(c)
    ensures c.NoMbc? ==> r == 0xFF
  {
    match c
    case NoMbc => 0xFF
    case Mbc1Ctl(m) => m.ReadExternalRAM(addr)
    case Mbc3Ctl(m) => m.ReadExternalRAM(addr)
    case Mbc5Ctl(m) => m.ReadExternalRAM(addr)
  }

  /** Whether external-RAM accesses currently reach the RAM: MBC1 and MBC5 need RAM present and
   *  enabled, MBC3 needs RAM present and a RAM bank mapped. */
  predicate RamOpen(c: Controller)
    reads Repr(c)
  {
    match c
    case NoMbc => false
    case Mbc1Ctl(m) => m.ramBanks != null && m.ramEnabled
    case Mbc3Ctl(m) => m.ramBanks != null && m.RamMapped()
    case Mbc5Ctl(m) => m.ramBanks != null && m.ramEnabled
  }

  /** The RAM bank external-RAM accesses use. */
  function RamBank(c: Controller): byte
    reads Repr(c)
  {
    match c
    case NoMbc => 0
    case Mbc1Ctl(m) => m.selectedRAMBank
    case Mbc3Ctl(m) => m.selectedRAMBank
    case Mbc5Ctl(m) => m.selectedRAMBank
  }

  /** Every controller's external RAM is the gated banked RAM, open exactly when RamOpen holds,
   *  except that an unmapped MBC3 (an RTC register) reads 0 rather than 0xFF. */
  lemma ReadIsGated(c: Controller, addr: word)
    ensures !(c.Mbc3Ctl? && !c.m3.RamMapped()) ==>
              ReadExternalRAM(c, addr) == GatedRead(Ram(c), RamOpen(c), RamBank(c), WordNat(addr))
    ensures c.Mbc3Ctl? && !c.m3.RamMapped() ==> ReadExternalRAM(c, addr) == 0
  {
  }

  /** mbc_writeExternalRAM: the gated write of the controller; nothing without one. */
  method WriteExternalRAM(c: Controller, addr: word, b: byte)
    modifies Repr(c)
    ensures old(Valid(c)) ==> Valid(c)
    ensures Ram(c) == GatedWrite(old(Ram(c)), old(RamOpen(c)), old(RamBank(c)), WordNat(addr), b)
    ensures c.NoMbc? ==> Ram(c) == []
  {
    match c
    case NoMbc =>
    case Mbc1Ctl(m) => m.WriteExternalRAM(addr, b);
    case Mbc3Ctl(m) => m.WriteExternalRAM(addr, b);
    case Mbc5Ctl(m) => m.WriteExternalRAM(addr, b);
  }

  /** The registers of a controller after its interceptROMWrite(addr, b), against those before
   *  it: MBC1, MBC3 and MBC5 as their own write rules say; without a controller there are none. */
  twostate predicate Intercepted(c: Controller, addr: word, b: byte)
    reads Repr(c)
  {
    match c
    case NoMbc => true
    case Mbc1Ctl(m) => m.Intercepted(addr, b)
    case Mbc3Ctl(m) => m.Intercepted(addr, b)
    case Mbc5Ctl(m) => m.Intercepted(addr, b)
  }

  /** mbc_interceptROMWrite: the controller's register write, which leaves its external RAM as
   *  it was; nothing without one. */
  method InterceptROMWrite(c: Controller, addr: word, b: byte)
    requires Valid(c)
    modifies Repr(c)
    ensures Valid(c) && Ram(c) == old(Ram(c))
    ensures Intercepted(c, addr, b)
  {
    match c
    case NoMbc =>
    case Mbc1Ctl(m) => m.InterceptROMWrite(addr, b);
    case Mbc3Ctl(m) => m.InterceptROMWrite(addr, b);
    case Mbc5Ctl(m) => m.InterceptROMWrite(addr, b);
  }
}
