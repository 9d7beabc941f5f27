// switchMode of gba/arm7tdmi.c: the register banking of the ARM7TDMI. R8-R14 of FIQ and R13-R14
// of the other privileged modes live in their own banks while another mode runs; the User/System
// copies are parked in REG_SWAP while a privileged mode runs. Each privileged mode has its SPSR
// saved in BANK_SPSR while it is not active.

module GbaBanks {
  import opened Bits
  import opened GbaState
  import opened GbaShifter

  /** The register file, REG_SWAP, the banks and the SPSR as values. */
  datatype Regs = Regs(
    reg: seq<dword>, swap: seq<dword>,
    fiq: seq<dword>, svc: seq<dword>, abt: seq<dword>, irq: seq<dword>, und: seq<dword>,
    spsrBank: seq<dword>, spsr: dword)

  /** The banked state together with the CPSR and cpu_mode. */
  datatype Banked = Banked(regs: Regs, cpsr: dword, mode: Mode)

  /** The arrays have their C sizes. */
  predicate Sized(r: Regs)
  {
    |r.reg| == 16 && |r.swap| == 7 && |r.fiq| == 7 && |r.svc| == 2 && |r.abt| == 2 &&
    |r.irq| == 2 && |r.und| == 2 && |r.spsrBank| == 5
  }

  /** A memcpy of src to position at of s. */
  function Splice(s: seq<dword>, at: nat, src: seq<dword>): (r: seq<dword>)
    requires at + |src| <= |s|
    ensures |r| == |s|
    ensures forall i :: 0 <= i < |s| ==> r[i] == (if at <= i < at + |src| then src[i - at] else s[i])
  {
    s[..at] + src + s[at + |src|..]
  }

  /** The R13-R14 bank of a privileged mode other than FIQ. */
  function Bank(r: Regs, m: Mode): seq<dword>
    requires !Unprivileged(m) && m != Fiq
  {
    match m
    case Svc => r.svc
    case Abt => r.abt
    case Irq => r.irq
    case Und => r.und
  }

  /** r with the R13-R14 bank of m replaced; the other fields are kept. */
  function WithBank(r: Regs, m: Mode, v: seq<dword>): (s: Regs)
    requires !Unprivileged(m) && m != Fiq
    ensures Bank(s, m) == v
    ensures s.reg == r.reg && s.swap == r.swap && s.fiq == r.fiq && s.spsrBank == r.spsrBank
    ensures s.spsr == r.spsr
    ensures forall n :: !Unprivileged(n) && n != Fiq && n != m ==> Bank(s, n) == Bank(r, n)
  {
    match m
    case Svc => r.(svc := v)
    case Abt => r.(abt := v)
    case Irq => r.(irq := v)
    case Und => r.(und := v)
  }

  /** Leaving User or System: R13-R14 go to REG_SWAP. */
  function SaveUnprivileged(r: Regs): (s: Regs)
    requires Sized(r)
    ensures Sized(s)
  {
    r.(swap := Splice(r.swap, 5, r.reg[13..15]))
  }

  /** Leaving FIQ: R8-R14 go to BANK_FIQ, R8-R12 come back from REG_SWAP, the SPSR goes to its
   *  slot. */
  function SaveFiq(r: Regs): (s: Regs)
    requires Sized(r)
    ensures Sized(s)
  {
    r.(fiq := r.reg[8..15], reg := Splice(r.reg, 8, r.swap[..5]),
       spsrBank := r.spsrBank[SpsrSlot(Fiq) := r.spsr])
  }

  /** Leaving another privileged mode: R13-R14 go to its bank, the SPSR to its slot. */
  function SaveBanked(r: Regs, m: Mode): (s: Regs)
    requires Sized(r) && !Unprivileged(m) && m != Fiq
    ensures Sized(s)
  {
    WithBank(r, m, r.reg[13..15]).(spsrBank := r.spsrBank[SpsrSlot(m) := r.spsr])
  }

  /** The first half of switchMode: the outgoing mode's registers go to their bank (and FIQ
   *  restores R8-R12 from REG_SWAP), then a privileged mode's SPSR goes to BANK_SPSR. */
  function Save(r: Regs, from: Mode): (s: Regs)
    requires Sized(r)
    ensures Sized(s)
  {
    if Unprivileged(from) then SaveUnprivileged(r)
    else if from == Fiq then SaveFiq(r)
    else SaveBanked(r, from)
  }

  /** Entering User or System: R13-R14 come back from REG_SWAP; the SPSR reads 0xFFFFFFFF. */
  function LoadUnprivileged(r: Regs): (s: Regs)
    requires Sized(r)
    ensures Sized(s)
  {
    r.(reg := Splice(r.reg, 13, r.swap[5..7]), spsr := 0xFFFF_FFFF)
  }

  /** Entering FIQ: R8-R12 are parked in REG_SWAP, R8-R14 come from BANK_FIQ. */
  function LoadFiq(r: Regs): (s: Regs)
    requires Sized(r)
    ensures Sized(s)
  {
    r.(swap := Splice(r.swap, 0, r.reg[8..13]), reg := Splice(r.reg, 8, r.fiq),
       spsr := r.spsrBank[SpsrSlot(Fiq)])
  }

  /** Entering another privileged mode: R13-R14 come from its bank. */
  function LoadBanked(r: Regs, m: Mode): (s: Regs)
    requires Sized(r) && !Unprivileged(m) && m != Fiq
    ensures Sized(s)
  {
    r.(reg := Splice(r.reg, 13, Bank(r, m)), spsr := r.spsrBank[SpsrSlot(m)])
  }

  /** The second half: the incoming mode's registers are loaded (FIQ first parks R8-R12 in
   *  REG_SWAP), and its SPSR, or 0xFFFFFFFF for User and System. */
  function Load(r: Regs, to: Mode): (s: Regs)
    requires Sized(r)
    ensures Sized(s)
  {
    if Unprivileged(to) then LoadUnprivileged(r)
    else if to == Fiq then LoadFiq(r)
    else LoadBanked(r, to)
  }

  /** The banking part of a switch between modes with different registers. */
  function Rebank(r: Regs, from: Mode, to: Mode): (s: Regs)
    requires Sized(r)
    ensures Sized(s)
  {
    Load(Save(r, from), to)
  }

  /** switchMode: nothing for the current mode; only the mode for User and System, which share
   *  their registers; otherwise save, load, and the new mode in the CPSR and cpu_mode. */
  function SwitchMode(b: Banked, m: Mode): (r: Banked)
    requires Sized(b.regs)
    ensures Sized(r.regs) && r.mode == m
  {
    if b.mode == m then b
    else if Unprivileged(b.mode) && Unprivileged(m) then b.(cpsr := SetMode(b.cpsr, m), mode := m)
    else Banked(Rebank(b.regs, b.mode, m), SetMode(b.cpsr, m), m)
  }

  /** The CPSR names the mode, and the SPSR of User and System holds the 0xFFFFFFFF that
   *  initialiseCPU and switchMode leave there. */
  predicate Consistent(b: Banked)
  {
    Sized(b.regs) && b.cpsr & 0x1F == 0x10 | ModeBits(b.mode) &&
    (Unprivileged(b.mode) ==> b.regs.spsr == 0xFFFF_FFFF)
  }

  /** switchMode keeps the state consistent and the CPSR reads back the new mode. */
  lemma SwitchModeConsistent(b: Banked, m: Mode)
    requires Consistent(b)
    ensures Consistent(SwitchMode(b, m))
    ensures GetMode(SwitchMode(b, m).cpsr) == Some(m)
  {
    GetModeSetMode(b.cpsr, m);
    if b.mode == m {
      SetModeSame(b.cpsr, m);
    } else if !Unprivileged(b.mode) || !Unprivileged(m) {
      if Unprivileged(m) {
        assert Rebank(b.regs, b.mode, m) == LoadUnprivileged(Save(b.regs, b.mode));
      }
    }
  }

  /** Between User and System only the mode changes: the CPSR keeps every bit above the mode
   *  field, and every register, bank and SPSR is kept. */
  lemma UserSystemOnlyMode(b: Banked, m: Mode)
    requires Sized(b.regs) && Unprivileged(b.mode) && Unprivileged(m)
    ensures SwitchMode(b, m).regs == b.regs
    ensures SwitchMode(b, m).cpsr & !0x1F == b.cpsr & !0x1F
  {
    if b.mode != m {
      KeepsHighBits(b.cpsr, m);
    }
  }

  lemma KeepsHighBits(cpsr: dword, m: Mode)
    ensures SetMode(cpsr, m) & !0x1F == cpsr & !0x1F
  {
  }

  /** R0-R7 and R15 are shared by every mode. */
  lemma SharedRegisters(b: Banked, m: Mode, i: nat)
    requires Sized(b.regs) && (i < 8 || i == 15)
    ensures SwitchMode(b, m).regs.reg[i] == b.regs.reg[i]
  {
  }

  /** Leaving a privileged mode for User or System makes the SPSR 0xFFFFFFFF. */
  lemma LeavingSetsSpsr(b: Banked, m: Mode)
    requires Sized(b.regs) && !Unprivileged(b.mode) && Unprivileged(m)
    ensures SwitchMode(b, m).regs.spsr == 0xFFFF_FFFF
  {
  }

  /** Entering a privileged mode loads its SPSR and its bank: R8-R14 for FIQ, R13-R14 for the
   *  others. */
  lemma EnteringLoadsBank(b: Banked, m: Mode)
    requires Sized(b.regs) && !Unprivileged(m) && m != b.mode
    ensures SwitchMode(b, m).regs.spsr == b.regs.spsrBank[SpsrSlot(m)]
    ensures m == Fiq ==> SwitchMode(b, m).regs.reg[8..15] == b.regs.fiq
    ensures m != Fiq ==> SwitchMode(b, m).regs.reg[13..15] == Bank(b.regs, m)
  {
    var s := Save(b.regs, b.mode);
    if !Unprivileged(b.mode) {
      SpsrSlotsDistinct(b.mode, m);
    }
    assert s.spsrBank[SpsrSlot(m)] == b.regs.spsrBank[SpsrSlot(m)];
    if m == Fiq {
      assert s.fiq == b.regs.fiq;
    } else {
      assert Bank(s, m) == Bank(b.regs, m);
    }
  }

  /** Leaving a privileged mode for User or System brings back their R13-R14 from REG_SWAP, and
   *  leaving FIQ also their R8-R12. */
  lemma LeavingRestoresUserRegisters(b: Banked, m: Mode)
    requires Sized(b.regs) && !Unprivileged(b.mode) && Unprivileged(m)
    ensures SwitchMode(b, m).regs.reg[13..15] == b.regs.swap[5..7]
    ensures b.mode == Fiq ==> SwitchMode(b, m).regs.reg[8..13] == b.regs.swap[..5]
  {
  }

  /** Switching to another mode and back restores the registers, the SPSR and the CPSR. */
  lemma SwitchBack(b: Banked, m: Mode)
    requires Consistent(b)
    ensures SwitchMode(SwitchMode(b, m), b.mode).regs.reg == b.regs.reg
    ensures SwitchMode(SwitchMode(b, m), b.mode).regs.spsr == b.regs.spsr
    ensures SwitchMode(SwitchMode(b, m), b.mode).cpsr == b.cpsr
  {
    SetModeTwice(b.cpsr, m, b.mode);
    SetModeSame(b.cpsr, b.mode);
    if b.mode != m && !(Unprivileged(b.mode) && Unprivileged(m)) {
      RoundTripRegisters(b.regs, b.mode, m);
      RoundTripSpsr(b.regs, b.mode, m);
    }
  }

  /** The registers after a round trip through a mode with other banks. */
  lemma RoundTripRegisters(r: Regs, a: Mode, m: Mode)
    requires Sized(r) && a != m && !(Unprivileged(a) && Unprivileged(m))
    ensures Rebank(Rebank(r, a, m), m, a).reg == r.reg
  {
    var back := Rebank(Rebank(r, a, m), m, a);
    if Unprivileged(a) {
      if m == Fiq {
        assert back == LoadUnprivileged(SaveFiq(LoadFiq(SaveUnprivileged(r))));
        RoundTripUnprivilegedFiq(r);
      } else {
        assert back == LoadUnprivileged(SaveBanked(LoadBanked(SaveUnprivileged(r), m), m));
        RoundTripUnprivilegedBanked(r, m);
      }
    } else if a == Fiq {
      if Unprivileged(m) {
        assert back == LoadFiq(SaveUnprivileged(LoadUnprivileged(SaveFiq(r))));
        RoundTripFiqUnprivileged(r);
      } else {
        assert back == LoadFiq(SaveBanked(LoadBanked(SaveFiq(r), m), m));
        RoundTripFiqBanked(r, m);
      }
    } else if Unprivileged(m) {
      assert back == LoadBanked(SaveUnprivileged(LoadUnprivileged(SaveBanked(r, a))), a);
      RoundTripBankedUnprivileged(r, a);
    } else if m == Fiq {
      assert back == LoadBanked(SaveFiq(LoadFiq(SaveBanked(r, a))), a);
      RoundTripBankedFiq(r, a);
    } else {
      assert back == LoadBanked(SaveBanked(LoadBanked(SaveBanked(r, a), m), m), a);
      RoundTripBankedBanked(r, a, m);
    }
  }

  lemma RoundTripUnprivilegedFiq(r: Regs)
    requires Sized(r)
    ensures LoadUnprivileged(SaveFiq(LoadFiq(SaveUnprivileged(r)))).reg == r.reg
  {
    var s1 := SaveUnprivileged(r);
    assert s1.reg == r.reg && s1.swap[5..7] == r.reg[13..15];
    var s2 := LoadFiq(s1);
    assert s2.swap == Splice(s1.swap, 0, r.reg[8..13]);
    assert s2.swap[..5] == r.reg[8..13] && s2.swap[5..7] == r.reg[13..15];
    var s3 := SaveFiq(s2);
    assert s3.swap == s2.swap;
    assert forall i :: 0 <= i < 13 ==> s3.reg[i] == r.reg[i];
    var c := LoadUnprivileged(s3);
    assert forall i :: 0 <= i < 16 ==> c.reg[i] == r.reg[i];
  }

  lemma RoundTripUnprivilegedBanked(r: Regs, m: Mode)
    requires Sized(r) && !Unprivileged(m) && m != Fiq
    ensures LoadUnprivileged(SaveBanked(LoadBanked(SaveUnprivileged(r), m), m)).reg == r.reg
  {
    var c := LoadUnprivileged(SaveBanked(LoadBanked(SaveUnprivileged(r), m), m));
    assert forall i :: 0 <= i < 16 ==> c.reg[i] == r.reg[i];
  }

  lemma RoundTripFiqUnprivileged(r: Regs)
    requires Sized(r)
    ensures LoadFiq(SaveUnprivileged(LoadUnprivileged(SaveFiq(r)))).reg == r.reg
  {
    var c := LoadFiq(SaveUnprivileged(LoadUnprivileged(SaveFiq(r))));
    assert forall i :: 0 <= i < 16 ==> c.reg[i] == r.reg[i];
  }

  lemma RoundTripFiqBanked(r: Regs, m: Mode)
    requires Sized(r) && !Unprivileged(m) && m != Fiq
    ensures LoadFiq(SaveBanked(LoadBanked(SaveFiq(r), m), m)).reg == r.reg
  {
    var mid := LoadBanked(SaveFiq(r), m);
    assert SaveBanked(mid, m).fiq == r.reg[8..15];
    var c := LoadFiq(SaveBanked(mid, m));
    assert forall i :: 0 <= i < 16 ==> c.reg[i] == r.reg[i];
  }

  lemma RoundTripBankedUnprivileged(r: Regs, a: Mode)
    requires Sized(r) && !Unprivileged(a) && a != Fiq
    ensures LoadBanked(SaveUnprivileged(LoadUnprivileged(SaveBanked(r, a))), a).reg == r.reg
  {
    var mid := SaveUnprivileged(LoadUnprivileged(SaveBanked(r, a)));
    assert Bank(mid, a) == r.reg[13..15];
    var c := LoadBanked(mid, a);
    assert forall i :: 0 <= i < 16 ==> c.reg[i] == r.reg[i];
  }

  lemma RoundTripBankedFiq(r: Regs, a: Mode)
    requires Sized(r) && !Unprivileged(a) && a != Fiq
    ensures LoadBanked(SaveFiq(LoadFiq(SaveBanked(r, a))), a).reg == r.reg
  {
    var mid := SaveFiq(LoadFiq(SaveBanked(r, a)));
    assert Bank(mid, a) == r.reg[13..15];
    var c := LoadBanked(mid, a);
    assert forall i :: 0 <= i < 16 ==> c.reg[i] == r.reg[i];
  }

  lemma RoundTripBankedBanked(r: Regs, a: Mode, m: Mode)
    requires Sized(r) && !Unprivileged(a) && a != Fiq && !Unprivileged(m) && m != Fiq && a != m
    ensures LoadBanked(SaveBanked(LoadBanked(SaveBanked(r, a), m), m), a).reg == r.reg
  {
    var mid := SaveBanked(LoadBanked(SaveBanked(r, a), m), m);
    assert Bank(mid, a) == r.reg[13..15];
    var c := LoadBanked(mid, a);
    assert forall i :: 0 <= i < 16 ==> c.reg[i] == r.reg[i];
  }

  /** The SPSR after a round trip: a privileged mode's SPSR comes back from its slot, which the
   *  other mode does not use; User and System get 0xFFFFFFFF again. */
  lemma RoundTripSpsr(r: Regs, a: Mode, m: Mode)
    requires Sized(r) && a != m && !(Unprivileged(a) && Unprivileged(m))
    requires Unprivileged(a) ==> r.spsr == 0xFFFF_FFFF
    ensures Rebank(Rebank(r, a, m), m, a).spsr == r.spsr
  {
    if !Unprivileged(a) {
      var mid := Rebank(r, a, m);
      assert mid.spsrBank == Save(r, a).spsrBank;
      if !Unprivileged(m) {
        SpsrSlotsDistinct(a, m);
      }
      assert Save(mid, m).spsrBank[SpsrSlot(a)] == r.spsr;
    }
  }
}
