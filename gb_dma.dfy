// The OAM DMA of gb/gb.c: a write to the DMA register schedules a transfer, cyclesSync_4
// starts it one M-cycle later, and syncDMA then copies one four-byte OAM entry every four
// M-cycles until all 0xA0 bytes have been copied after 160 M-cycles.

module GbDma {
  import opened Bits
  import opened GbState
  import opened GbBus

  /** The DMA bookkeeping fields of a GB. */
  datatype DmaRegs = DmaRegs(scheduleDMA: bool, scheduledTimer: byte, scheduledSource: word,
                             doingDMA: bool, mCycles: nat, source: word)

  /** A transfer is counting its 160 M-cycles or idle, a scheduled one starts 4 or 8 T-cycles
   *  later, and both sources lie below the echo area. */
  predicate RegsOk(d: DmaRegs)
  {
    d.mCycles < 160 && (!d.doingDMA ==> d.mCycles == 0) &&
    (d.scheduleDMA ==> d.scheduledTimer == 4 || d.scheduledTimer == 8) &&
    d.scheduledSource <= 0xDF00 && d.source <= 0xDF00
  }

  function RegsOf(gb: GB): (d: DmaRegs)
    reads gb`scheduleDMA, gb`scheduled_dmaTimer, gb`scheduled_dmaSource, gb`doingDMA, gb`mCyclesSinceDMA,
          gb`dmaSource
    ensures RegsOk(d) <==> gb.DmaOk()
  {
    DmaRegs(gb.scheduleDMA, gb.scheduled_dmaTimer, gb.scheduled_dmaSource, gb.doingDMA, gb.mCyclesSinceDMA,
            gb.dmaSource)
  }

  /** startDMATransfer. */
  function Started(d: DmaRegs): DmaRegs
  {
    d.(scheduleDMA := false, scheduledTimer := 0, mCycles := 0, source := d.scheduledSource, doingDMA := true)
  }

  /** The counters of one syncDMA call: one more M-cycle, and idle again after the 160th. */
  function Cycled(d: DmaRegs): (c: DmaRegs)
    ensures RegsOk(d) && d.doingDMA ==> RegsOk(c)
    ensures c.scheduleDMA == d.scheduleDMA && c.scheduledTimer == d.scheduledTimer
    ensures c.scheduledSource == d.scheduledSource
  {
    var m := d.mCycles + 1;
    if m == 160 then d.(source := 0, mCycles := 0, doingDMA := false) else d.(mCycles := m)
  }

  /** The DMA bookkeeping of one cyclesSync_4 call. The 8-bit timer wraps as in C. */
  function Tick(d: DmaRegs): (t: DmaRegs)
    ensures RegsOk(d) ==> RegsOk(t)
    ensures RegsOk(d) && d.scheduleDMA && d.scheduledTimer == 4 ==>
              t.doingDMA && t.mCycles == 0 && t.source == d.scheduledSource && !t.scheduleDMA
    ensures RegsOk(d) && !d.scheduleDMA ==> !t.scheduleDMA
  {
    Countdown(if d.doingDMA then Cycled(d) else d)
  }

  /** The scheduled part of cyclesSync_4: the timer counts down by 4 and the transfer starts
   *  when it reaches 0. */
  function Countdown(c: DmaRegs): (t: DmaRegs)
    ensures RegsOk(c) ==> RegsOk(t)
    ensures RegsOk(c) && c.scheduleDMA && c.scheduledTimer == 4 ==>
              t.doingDMA && t.mCycles == 0 && t.source == c.scheduledSource && !t.scheduleDMA
    ensures RegsOk(c) && c.scheduleDMA && c.scheduledTimer == 8 ==> t == c.(scheduledTimer := 4)
    ensures !c.scheduleDMA ==> t == c
  {
    if !c.scheduleDMA then c
    else if c.scheduledTimer - 4 == 0 then Started(c)
    else c.(scheduledTimer := c.scheduledTimer - 4)
  }

  /** n calls of cyclesSync_4. */
  function Ticks(d: DmaRegs, n: nat): DmaRegs
    decreases n
  {
    if n == 0 then d else Ticks(Tick(d), n - 1)
  }

  /** A DMA register write schedules a transfer with the timer at 8: the first cyclesSync_4
   *  brings the timer to 4, the second starts the transfer from the scheduled source. */
  lemma StartsOnSecondTick(d: DmaRegs, src: word)
    requires RegsOk(d) && src <= 0xDF00
    ensures var s := d.(scheduleDMA := true, scheduledTimer := 8, scheduledSource := src);
            Tick(s).scheduleDMA && Tick(s).scheduledTimer == 4 &&
            Ticks(s, 2).doingDMA && Ticks(s, 2).mCycles == 0 && Ticks(s, 2).source == src &&
            !Ticks(s, 2).scheduleDMA
  {
    var s := d.(scheduleDMA := true, scheduledTimer := 8, scheduledSource := src);
    assert Ticks(s, 2) == Tick(Tick(s));
  }

  /** A started transfer, with nothing scheduled meanwhile, is busy for 159 ticks and idle
   *  again, its source cleared, on the 160th. */
  lemma {:induction false} TransferLasts160(d: DmaRegs, n: nat)
    requires d.doingDMA && !d.scheduleDMA && d.mCycles < 160 && d.mCycles + n <= 160
    decreases n
    ensures d.mCycles + n < 160 ==> Ticks(d, n) == d.(mCycles := d.mCycles + n)
    ensures d.mCycles + n == 160 ==> Ticks(d, n) == d.(source := 0, mCycles := 0, doingDMA := false)
  {
    if n > 0 {
      if d.mCycles + 1 < 160 {
        assert Tick(d) == d.(mCycles := d.mCycles + 1);
        TransferLasts160(Tick(d), n - 1);
      } else {
        assert n == 1;
        assert Ticks(d, 1) == Tick(d);
      }
    }
  }

  /** The offset j of a transfer as the 8-bit addressLow + i of syncDMA, counted up in 8-bit
   *  arithmetic. */
  function OffsetByte(j: nat): byte
    requires j < 0xA0
  {
    if j == 0 then 0 else OffsetByte(j - 1) + 1
  }

  /** The address of a transfer's byte, in 16-bit arithmetic. */
  function DmaAddress(source: word, offset: nat): word
    requires offset < 0xA0
  {
    source + OffsetByte(offset) as word
  }

  /** The source of a transfer lies in the cartridge, VRAM or work RAM (never in OAM), so
   *  the OAM writes leave its reads alone. */
  lemma SourceBelowEcho(source: word, offset: nat)
    requires source <= 0xDF00 && offset < 0xA0
    ensures WordNat(DmaAddress(source, offset)) <= 0xDF9F
    ensures AreaOf(DmaAddress(source, offset)) != ObjectRam
  {
    DmaAddressBound(source, offset);
    BelowEcho(DmaAddress(source, offset));
  }

  lemma BelowEcho(a: word)
    requires a <= 0xDF9F
    ensures WordNat(a) <= 0xDF9F
  {
  }

  lemma DmaAddressBound(source: word, offset: nat)
    requires source <= 0xDF00 && offset < 0xA0
    ensures DmaAddress(source, offset) <= 0xDF9F
  {
    SmallOffset(offset);
  }

  /** OffsetByte does not wrap. */
  lemma {:induction false} OffsetByteValue(j: nat)
    requires j < 0xA0
    ensures ByteNat(OffsetByte(j)) == j
  {
    if j > 0 {
      OffsetByteValue(j - 1);
      ByteSucc(OffsetByte(j - 1));
    }
  }

  lemma SmallOffset(offset: nat)
    requires offset < 0xA0
    ensures OffsetByte(offset) < 0xA0
  {
    OffsetByteValue(offset);
  }

  /** The byte readAddr gives at an offset into a transfer's source, which never reaches
   *  OAM. */
  function DmaByte(gb: GB, source: word, offset: nat): byte
    requires gb.Shape() && gb.BanksOk() && source <= 0xDF00 && offset < 0xA0
    reads gb.wram, gb.vram, gb`mbc, gb`lockVRAM
    reads gb`selectedWRAMBank, gb`selectedVRAMBank, gb`currentBackgroundCRAMIndex, gb`currentSpriteCRAMIndex
    reads GbMbc.Repr(gb.mbc)
  {
    SourceBelowEcho(source, offset);
    PeekBelowEcho(gb, DmaAddress(source, offset))
  }

  /** It is what readAddr returns there. */
  lemma DmaByteIsRead(gb: GB, source: word, offset: nat)
    requires gb.Shape() && gb.BanksOk() && source <= 0xDF00 && offset < 0xA0
    ensures DmaByte(gb, source, offset) == Peek(gb, DmaAddress(source, offset))
  {
    SourceBelowEcho(source, offset);
  }

  /** OAM with entry k replaced. */
  function WithEntry(oam: seq<byte>, k: nat, entry: seq<byte>): (o: seq<byte>)
    requires |oam| == 0xA0 && k < 40 && |entry| == 4
    ensures |o| == 0xA0
    ensures forall j :: 0 <= j < 0xA0 ==> o[j] == if 4 * k <= j < 4 * k + 4 then entry[j - 4 * k] else oam[j]
  {
    oam[..4 * k] + entry + oam[4 * k + 4..]
  }

  /** OAM after m M-cycles of a transfer of the bytes src. */
  function Transfer(oam: seq<byte>, src: seq<byte>, m: nat): (o: seq<byte>)
    requires |oam| == 0xA0 && |src| == 0xA0 && m <= 160
    ensures |o| == 0xA0
  {
    if m == 0 then oam
    else
      var o := Transfer(oam, src, m - 1);
      if m % 4 == 0 then WithEntry(o, m / 4 - 1, src[4 * (m / 4 - 1)..4 * (m / 4)]) else o
  }

  /** After m M-cycles the entries of the completed four-cycle groups hold the source bytes
   *  and the rest of OAM is as before. */
  lemma {:induction false} TransferCopiesPrefix(oam: seq<byte>, src: seq<byte>, m: nat)
    requires |oam| == 0xA0 && |src| == 0xA0 && m <= 160
    ensures forall j :: 0 <= j < 0xA0 ==> Transfer(oam, src, m)[j] == if j < 4 * (m / 4) then src[j] else oam[j]
  {
    if m > 0 {
      TransferCopiesPrefix(oam, src, m - 1);
    }
  }

  /** The whole 160 M-cycles copy all 0xA0 bytes. */
  lemma TransferComplete(oam: seq<byte>, src: seq<byte>)
    requires |oam| == 0xA0 && |src| == 0xA0
    ensures Transfer(oam, src, 160) == src
  {
    TransferCopiesPrefix(oam, src, 160);
  }

  /** startDMATransfer. */
  method StartDMATransfer(gb: GB)
    requires gb.scheduled_dmaSource <= 0xDF00
    modifies gb`scheduleDMA, gb`scheduled_dmaTimer, gb`mCyclesSinceDMA, gb`dmaSource, gb`doingDMA
    ensures gb.DmaOk()
    ensures RegsOf(gb) == Started(old(RegsOf(gb)))
  {
    gb.scheduleDMA := false;
    gb.scheduled_dmaTimer := 0;
    gb.mCyclesSinceDMA := 0;
    gb.dmaSource := gb.scheduled_dmaSource;
    gb.doingDMA := true;
  }

  /** The four bytes readAddr gives for OAM entry k, in order. */
  function EntryBytes(gb: GB, k: nat): (e: seq<byte>)
    requires gb.Shape() && gb.BanksOk() && k < 40 && gb.dmaSource <= 0xDF00
    reads gb`dmaSource, gb.wram, gb.vram, gb`mbc, gb`lockVRAM
    reads gb`selectedWRAMBank, gb`selectedVRAMBank, gb`currentBackgroundCRAMIndex, gb`currentSpriteCRAMIndex
    reads GbMbc.Repr(gb.mbc)
    ensures |e| == 4
    ensures forall i :: 0 <= i < 4 ==> e[i] == DmaByte(gb, gb.dmaSource, 4 * k + i)
  {
    [DmaByte(gb, gb.dmaSource, 4 * k), DmaByte(gb, gb.dmaSource, 4 * k + 1),
     DmaByte(gb, gb.dmaSource, 4 * k + 2), DmaByte(gb, gb.dmaSource, 4 * k + 3)]
  }

  /** The first n bytes a transfer from dmaSource copies, as readAddr gives them now. */
  function SourcePrefix(gb: GB, n: nat): (s: seq<byte>)
    requires gb.Shape() && gb.BanksOk() && gb.dmaSource <= 0xDF00 && n <= 0xA0
    reads gb`dmaSource, gb.wram, gb.vram, gb`mbc, gb`lockVRAM
    reads gb`selectedWRAMBank, gb`selectedVRAMBank, gb`currentBackgroundCRAMIndex, gb`currentSpriteCRAMIndex
    reads GbMbc.Repr(gb.mbc)
    decreases n
    ensures |s| == n
    ensures forall j :: 0 <= j < n ==> s[j] == DmaByte(gb, gb.dmaSource, j)
  {
    if n == 0 then [] else SourcePrefix(gb, n - 1) + [DmaByte(gb, gb.dmaSource, n - 1)]
  }

  /** All 0xA0 bytes a transfer from dmaSource copies. */
  function SourceBytes(gb: GB): (s: seq<byte>)
    requires gb.Shape() && gb.BanksOk() && gb.dmaSource <= 0xDF00
    reads gb`dmaSource, gb.wram, gb.vram, gb`mbc, gb`lockVRAM
    reads gb`selectedWRAMBank, gb`selectedVRAMBank, gb`currentBackgroundCRAMIndex, gb`currentSpriteCRAMIndex
    reads GbMbc.Repr(gb.mbc)
  {
    SourcePrefix(gb, 0xA0)
  }

  /** The entry copied on the 4(k+1)-th M-cycle is the k-th four-byte slice of the source, so
   *  while the source memory stays as it is, the OAM after m M-cycles is Transfer(oam,
   *  SourceBytes(gb), m). */
  lemma EntryIsSlice(gb: GB, k: nat)
    requires gb.Shape() && gb.BanksOk() && k < 40 && gb.dmaSource <= 0xDF00
    ensures EntryBytes(gb, k) == SourceBytes(gb)[4 * k..4 * k + 4]
  {
    var e, s := EntryBytes(gb, k), SourceBytes(gb)[4 * k..4 * k + 4];
    assert forall i :: 0 <= i < 4 ==> e[i] == s[i];
  }

  /** The for loop of syncDMA, writing OAM entry k. */
  method CopyEntry(gb: GB, k: nat, entry: seq<byte>)
    requires gb.Shape() && k < 40 && |entry| == 4
    modifies gb.OAM
    ensures gb.OAM[..] == WithEntry(old(gb.OAM[..]), k, entry)
  {
    var low := k * 4;
    for i := 0 to 4
      invariant forall j :: 0 <= j < 0xA0 ==>
                  gb.OAM[j] == if low <= j < low + i then entry[j - low] else old(gb.OAM[j])
    {
      gb.OAM[low + i] := entry[i];
    }
  }

  /** The OAM part of syncDMA: when the M-cycle about to be counted completes a group of four,
   *  the next entry takes the four bytes readAddr gives at its source (ROM, VRAM, external RAM
   *  or work RAM, where readAddr has no side effects). */
  method CopyStep(gb: GB)
    requires gb.Shape() && gb.BanksOk() && gb.DmaOk()
    modifies gb.OAM
    ensures var m := old(gb.mCyclesSinceDMA) + 1;
            gb.OAM[..] == if m % 4 == 0 then WithEntry(old(gb.OAM[..]), m / 4 - 1, old(EntryBytes(gb, m / 4 - 1)))
                          else old(gb.OAM[..])
  {
    var m := gb.mCyclesSinceDMA + 1;
    if m % 4 == 0 {
      var entry := EntryBytes(gb, m / 4 - 1);
      CopyEntry(gb, m / 4 - 1, entry);
    }
  }

  /** The counter part of syncDMA. */
  method CountStep(gb: GB)
    requires gb.DmaOk() && gb.doingDMA
    modifies gb`mCyclesSinceDMA, gb`dmaSource, gb`doingDMA
    ensures RegsOf(gb) == Cycled(old(RegsOf(gb)))
  {
    var m := gb.mCyclesSinceDMA + 1;
    if m == 160 {
      gb.dmaSource := 0;
      gb.mCyclesSinceDMA := 0;
      gb.doingDMA := false;
    } else {
      gb.mCyclesSinceDMA := m;
    }
  }

  /** syncDMA, which cyclesSync_4 calls while a transfer is on: one more M-cycle, an entry copied
   *  every fourth, and idle again after the 160th. The copy reads no counter, so it is done
   *  before the counter is stored. */
  method SyncDMA(gb: GB)
    requires gb.Shape() && gb.BanksOk() && gb.DmaOk() && gb.doingDMA
    modifies gb.OAM, gb`mCyclesSinceDMA, gb`dmaSource, gb`doingDMA
    ensures gb.DmaOk()
    ensures RegsOf(gb) == Cycled(old(RegsOf(gb)))
    ensures var m := old(gb.mCyclesSinceDMA) + 1;
            gb.OAM[..] == if m % 4 == 0 then WithEntry(old(gb.OAM[..]), m / 4 - 1, old(EntryBytes(gb, m / 4 - 1)))
                          else old(gb.OAM[..])
  {
    CopyStep(gb);
    CountStep(gb);
  }

  /** The countdown of a scheduled transfer in cyclesSync_4. */
  method CountdownStep(gb: GB)
    requires gb.DmaOk()
    modifies gb`scheduleDMA, gb`scheduled_dmaTimer, gb`mCyclesSinceDMA, gb`dmaSource, gb`doingDMA
    ensures RegsOf(gb) == Countdown(old(RegsOf(gb)))
  {
    if gb.scheduleDMA {
      gb.scheduled_dmaTimer := gb.scheduled_dmaTimer - 4;
      if gb.scheduled_dmaTimer == 0 {
        StartDMATransfer(gb);
      }
    }
  }

  /** The DMA part of cyclesSync_4. */
  method DmaTick(gb: GB)
    requires gb.Shape() && gb.BanksOk() && gb.DmaOk()
    modifies gb.OAM, gb`mCyclesSinceDMA, gb`dmaSource, gb`doingDMA, gb`scheduleDMA, gb`scheduled_dmaTimer
    ensures gb.DmaOk()
    ensures RegsOf(gb) == Tick(old(RegsOf(gb)))
    ensures var m := old(gb.mCyclesSinceDMA) + 1;
            gb.OAM[..] == if old(gb.doingDMA) && m % 4 == 0
                          then WithEntry(old(gb.OAM[..]), m / 4 - 1, old(EntryBytes(gb, m / 4 - 1)))
                          else old(gb.OAM[..])
  {
    if gb.doingDMA {
      SyncDMA(gb);
    }
    CountdownStep(gb);
  }

  /** cyclesSync_4: four T-cycles pass, a running transfer advances by one M-cycle, and a
   *  scheduled one counts down and starts. Neither reads the clock, so the clock is advanced
   *  last here. */
  method CyclesSync4(gb: GB)
    requires gb.Shape() && gb.BanksOk() && gb.TimerOk() && gb.DmaOk()
    modifies gb`clock, gb.OAM, gb`mCyclesSinceDMA, gb`dmaSource, gb`doingDMA, gb`scheduleDMA,
             gb`scheduled_dmaTimer
    ensures gb.BanksOk() && gb.TimerOk() && gb.DmaOk()
    ensures gb.clock == old(gb.clock) + 4
    ensures RegsOf(gb) == Tick(old(RegsOf(gb)))
    ensures var m := old(gb.mCyclesSinceDMA) + 1;
            gb.OAM[..] == if old(gb.doingDMA) && m % 4 == 0
                          then WithEntry(old(gb.OAM[..]), m / 4 - 1, old(EntryBytes(gb, m / 4 - 1)))
                          else old(gb.OAM[..])
  {
    DmaTick(gb);
    gb.clock := gb.clock + 4;
  }

  /** cyclesSync_4 under the whole state invariant. */
  method CyclesSync4Valid(gb: GB)
    requires gb.Valid()
    modifies gb`clock, gb.OAM, gb`mCyclesSinceDMA, gb`dmaSource, gb`doingDMA, gb`scheduleDMA,
             gb`scheduled_dmaTimer
    ensures gb.Valid()
    ensures gb.clock == old(gb.clock) + 4
  {
    CyclesSync4(gb);
  }
}
