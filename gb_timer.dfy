// The timer, OAM-DMA scheduling and joypad bookkeeping of gb/gb.c: incrementTIMA, syncTimer,
// scheduleDMATransfer and updateJoypadRegBuffer.

module GbTimer {
  import opened Bits
  import opened GbState

  /** incrementTIMA on the I/O registers: past 0xFF, TIMA reloads from TMA and the timer
   *  interrupt is requested; otherwise TIMA counts up. */
  function IncTima(io: seq<byte>): (io': seq<byte>)
    requires |io| == 0x80
    ensures |io'| == 0x80
    ensures forall k :: 0 <= k < 0x80 && k != R_TIMA && k != R_IF ==> io'[k] == io[k]
    ensures io[R_TIMA] == 0xFF ==> io'[R_TIMA] == io[R_TMA] && io'[R_IF] == io[R_IF] | 0x04
    ensures io[R_TIMA] != 0xFF ==> ByteNat(io'[R_TIMA]) == ByteNat(io[R_TIMA]) + 1 && io'[R_IF] == io[R_IF]
  {
    if io[R_TIMA] == 0xFF then io[R_TIMA := io[R_TMA]][R_IF := io[R_IF] | 0x04]
    else io[R_TIMA := io[R_TIMA] + 1]
  }

  /** `n` calls of incrementTIMA in a row. */
  function IncTimaN(io: seq<byte>, n: nat): (io': seq<byte>)
    requires |io| == 0x80
    ensures |io'| == 0x80
  {
    if n == 0 then io else IncTima(IncTimaN(io, n - 1))
  }

  /** Without reaching 0xFF, n increments add n to TIMA and request no interrupt; every other
   *  register but TIMA and IF is untouched in any case. */
  lemma {:induction false} TimaCounts(io: seq<byte>, n: nat)
    requires |io| == 0x80 && ByteNat(io[R_TIMA]) + n <= 0xFF
    ensures ByteNat(IncTimaN(io, n)[R_TIMA]) == ByteNat(io[R_TIMA]) + n
    ensures IncTimaN(io, n)[R_IF] == io[R_IF]
  {
    if n > 0 {
      TimaCounts(io, n - 1);
    }
  }

  lemma {:induction false} TimaKeepsOthers(io: seq<byte>, n: nat)
    requires |io| == 0x80
    ensures forall k :: 0 <= k < 0x80 && k != R_TIMA && k != R_IF ==> IncTimaN(io, n)[k] == io[k]
  {
    if n > 0 {
      TimaKeepsOthers(io, n - 1);
    }
  }

  /** An interrupt request, once made, is never withdrawn by further increments. */
  lemma {:induction false} TimaKeepsRequests(io: seq<byte>, n: nat)
    requires |io| == 0x80
    ensures IncTimaN(io, n)[R_IF] & io[R_IF] == io[R_IF]
  {
    if n > 0 {
      TimaKeepsRequests(io, n - 1);
      var prev := IncTimaN(io, n - 1);
      assert IncTimaN(io, n)[R_IF] & prev[R_IF] == prev[R_IF];
    }
  }

  /** Counting past 0xFF requests the timer interrupt (IF bit 2). */
  lemma {:induction false} TimaOverflowRequests(io: seq<byte>, n: nat)
    requires |io| == 0x80 && ByteNat(io[R_TIMA]) + n > 0xFF
    ensures IncTimaN(io, n)[R_IF] & 0x04 == 0x04
  {
    if ByteNat(io[R_TIMA]) + (n - 1) > 0xFF {
      TimaOverflowRequests(io, n - 1);
      TimerRequestStays(IncTimaN(io, n - 1));
    } else {
      TimaReachesTop(io, n - 1);
    }
  }

  /** The increment that finds TIMA at 0xFF requests the interrupt. */
  lemma TimaReachesTop(io: seq<byte>, m: nat)
    requires |io| == 0x80 && ByteNat(io[R_TIMA]) + m == 0xFF
    ensures IncTimaN(io, m + 1)[R_IF] & 0x04 == 0x04
  {
    TimaCounts(io, m);
    ByteNatAll(IncTimaN(io, m)[R_TIMA]);
  }

  lemma TimerRequestStays(io: seq<byte>)
    requires |io| == 0x80 && io[R_IF] & 0x04 == 0x04
    ensures IncTima(io)[R_IF] & 0x04 == 0x04
  {
  }

  lemma ByteNatAll(b: byte)
    requires ByteNat(b) == 0xFF
    ensures b == 0xFF && (b | 0x04) & 0x04 == 0x04
  {
  }

  /** The TAC cycle table: T-cycles per TIMA increment for TAC & 3. */
  function TimaPeriod(tac: byte): (p: nat)
    ensures p == [1024, 16, 64, 256][ByteNat(tac & 3)]
  {
    var f := tac & 3;
    if f == 0 then 1024 else if f == 1 then 16 else if f == 2 then 64 else 256
  }

  /** Whether TAC bit 2 (timer enable) is set. */
  predicate TimerEnabled(tac: byte)
  {
    (tac >> 2) & 1 == 1
  }

  /** The number of incrementTIMA calls syncTimer makes after `elapsed` cycles. */
  function TimaIncrements(tac: byte, elapsed: nat): nat
  {
    if TimerEnabled(tac) && elapsed >= TimaPeriod(tac) then elapsed / TimaPeriod(tac) else 0
  }

  /** The TIMA sync point syncTimer leaves: rewound by the part of a period not yet counted. */
  function TimaSyncPoint(tac: byte, clock: nat, last: nat): nat
    requires last <= clock
  {
    if TimerEnabled(tac) && clock - last >= TimaPeriod(tac) then clock - (clock - last) % TimaPeriod(tac) else last
  }

  /** After a sync the TIMA sync point is less than a period behind the clock when the timer
   *  runs, and the counted periods plus that remainder make up the elapsed time. */
  lemma TimaSyncExact(tac: byte, clock: nat, last: nat)
    requires last <= clock && TimerEnabled(tac)
    ensures var p := TimaSyncPoint(tac, clock, last);
            last <= p <= clock && clock - p < TimaPeriod(tac) &&
            p - last == TimaIncrements(tac, clock - last) * TimaPeriod(tac)
  {
  }

  /** The DIV sync point: advanced by exactly one period of 256 once that much has elapsed. */
  function DivSyncPoint(clock: nat, last: nat): nat
    requires last <= clock
  {
    if clock - last >= 256 then clock - (clock - last - 256) else last
  }

  /** The I/O registers syncTimer leaves at `clock`: DIV one step on once 256 cycles have
   *  passed since its sync point, then TIMA incremented once per elapsed period. */
  function SyncedIO(io: seq<byte>, clock: nat, lastDIV: nat, lastTIMA: nat): (io': seq<byte>)
    requires |io| == 0x80 && lastDIV <= clock && lastTIMA <= clock
    ensures |io'| == 0x80
  {
    var afterDiv := io[R_DIV := if clock - lastDIV >= 256 then io[R_DIV] + 1 else io[R_DIV]];
    IncTimaN(afterDiv, TimaIncrements(io[R_TAC], clock - lastTIMA))
  }

  /** syncTimer. DIV counts one step once 256 cycles have passed (only one, however many have
   *  passed); with the timer enabled TIMA is incremented once per elapsed period. */
  method SyncTimer(gb: GB)
    requires gb.Shape() && gb.TimerOk()
    modifies gb.IO, gb`lastDIVSync, gb`lastTIMASync
    ensures gb.TimerOk()
    ensures gb.IO[..] == SyncedIO(old(gb.IO[..]), gb.clock, old(gb.lastDIVSync), old(gb.lastTIMASync))
    ensures gb.lastDIVSync == DivSyncPoint(gb.clock, old(gb.lastDIVSync))
    ensures gb.lastTIMASync == TimaSyncPoint(old(gb.IO[R_TAC]), gb.clock, old(gb.lastTIMASync))
  {
    SyncDIV(gb);
    SyncTIMA(gb);
  }

  /** The DIV half of syncTimer. */
  method SyncDIV(gb: GB)
    requires gb.Shape() && gb.TimerOk()
    modifies gb.IO, gb`lastDIVSync
    ensures gb.TimerOk()
    ensures var io := old(gb.IO[..]);
            gb.IO[..] == io[R_DIV := if gb.clock - old(gb.lastDIVSync) >= 256 then io[R_DIV] + 1 else io[R_DIV]]
    ensures gb.lastDIVSync == DivSyncPoint(gb.clock, old(gb.lastDIVSync))
  {
    var cycles := gb.clock;
    var elapsedDIV := cycles - gb.lastDIVSync;
    if elapsedDIV >= 256 {
      gb.lastDIVSync := cycles - (elapsedDIV - 256);
      gb.IO[R_DIV] := gb.IO[R_DIV] + 1;
    }
  }

  /** The TIMA half of syncTimer: the elapsed whole periods are counted and the remainder is
   *  left for the next sync. */
  method SyncTIMA(gb: GB)
    requires gb.Shape() && gb.TimerOk()
    modifies gb.IO, gb`lastTIMASync
    ensures gb.TimerOk()
    ensures gb.IO[..] == IncTimaN(old(gb.IO[..]), TimaIncrements(old(gb.IO[R_TAC]), gb.clock - old(gb.lastTIMASync)))
    ensures gb.lastTIMASync == TimaSyncPoint(old(gb.IO[R_TAC]), gb.clock, old(gb.lastTIMASync))
  {
    var cycles := gb.clock;
    var elapsedTIMA := cycles - gb.lastTIMASync;
    var tac := gb.IO[R_TAC];
    if (tac >> 2) & 1 == 1 {
      var cyc := TimaPeriod(tac);
      if elapsedTIMA >= cyc {
        var rem := elapsedTIMA % cyc;
        var increments := elapsedTIMA / cyc;
        gb.lastTIMASync := cycles - rem;
        var i := 0;
        while i < increments
          modifies gb.IO
          invariant 0 <= i <= increments
          invariant gb.IO[..] == IncTimaN(old(gb.IO[..]), i)
        {
          IncrementTIMA(gb);
          i := i + 1;
        }
      }
    }
  }

  /** incrementTIMA */
  method IncrementTIMA(gb: GB)
    requires gb.Shape()
    modifies gb.IO
    ensures gb.IO[..] == IncTima(old(gb.IO[..]))
  {
    var old_ := gb.IO[R_TIMA];
    if old_ == 0xFF {
      gb.IO[R_TIMA] := gb.IO[R_TMA];
      gb.RequestInterrupt(IntTimer);
    } else {
      gb.IO[R_TIMA] := gb.IO[R_TIMA] + 1;
    }
  }

  /** scheduleDMATransfer: pages above 0xDF are clamped to 0xDF; the transfer starts 8
   *  T-cycles later. */
  method ScheduleDMATransfer(gb: GB, b: byte)
    requires gb.DmaOk()
    modifies gb`scheduled_dmaSource, gb`scheduled_dmaTimer, gb`scheduleDMA
    ensures gb.DmaOk()
    ensures gb.scheduled_dmaSource == Join(if b > 0xDF then 0xDF else b, 0)
    ensures gb.scheduled_dmaSource <= 0xDF00 && gb.scheduled_dmaSource & 0xFF == 0
    ensures gb.scheduled_dmaTimer == 8 && gb.scheduleDMA
  {
    var page := b;
    if page > 0xDF {
      page := 0xDF;
    }
    gb.scheduled_dmaSource := (page as word) * 0x100;
    gb.scheduled_dmaTimer := 8;
    gb.scheduleDMA := true;
  }

  /** The lower nibble updateJoypadRegBuffer puts into P1 for a selection mode. */
  function JoypadNibble(mode: JoypadSelect, direction: byte, action: byte): (n: byte)
    ensures n <= 0xF
    ensures mode == SelectDirectionAction ==> n == direction & action & 0xF
    ensures mode == SelectAction ==> n == action & 0xF
    ensures mode == SelectDirection ==> n == direction & 0xF
    ensures mode == SelectNone ==> n == 0
  {
    match mode
    case SelectDirectionAction => !(!direction | !action) & 0xF
    case SelectAction => action & 0xF
    case SelectDirection => direction & 0xF
    case SelectNone => 0
  }

  /** updateJoypadRegBuffer: P1 keeps its upper nibble and takes the selected buttons in the
   *  lower one. */
  method UpdateJoypadRegBuffer(gb: GB, mode: JoypadSelect)
    requires gb.Shape()
    modifies gb.IO
    ensures gb.IO[..] == old(gb.IO[..])[R_P1_JOYP := (old(gb.IO[R_P1_JOYP]) & 0xF0) |
                           JoypadNibble(mode, gb.joypadDirectionBuffer, gb.joypadActionBuffer)]
  {
    match mode
    case SelectDirectionAction =>
      gb.IO[R_P1_JOYP] := gb.IO[R_P1_JOYP] & 0xF0;
      gb.IO[R_P1_JOYP] := gb.IO[R_P1_JOYP] | (!(!gb.joypadDirectionBuffer | !gb.joypadActionBuffer) & 0xF);
    case SelectAction =>
      gb.IO[R_P1_JOYP] := gb.IO[R_P1_JOYP] & 0xF0;
      gb.IO[R_P1_JOYP] := gb.IO[R_P1_JOYP] | (gb.joypadActionBuffer & 0xF);
    case SelectDirection =>
      gb.IO[R_P1_JOYP] := gb.IO[R_P1_JOYP] & 0xF0;
      gb.IO[R_P1_JOYP] := gb.IO[R_P1_JOYP] | (gb.joypadDirectionBuffer & 0xF);
    case SelectNone =>
      gb.IO[R_P1_JOYP] := gb.IO[R_P1_JOYP] & 0xF0;
  }

  /** The nibble updateJoypadRegBuffer writes reads back through P1 whatever the upper nibble
   *  held, and the upper nibble survives. */
  lemma JoypadNibbleReadsBack(p1: byte, mode: JoypadSelect, direction: byte, action: byte)
    ensures ((p1 & 0xF0) | JoypadNibble(mode, direction, action)) & 0xF == JoypadNibble(mode, direction, action)
    ensures ((p1 & 0xF0) | JoypadNibble(mode, direction, action)) & 0xF0 == p1 & 0xF0
  {
  }
}
