// debug/autodebug.py: after running both emulators, the script compares the reference log
// (binjgb's) with the emulator's own, line by line on the first 30 characters, and reports the
// first line that differs with five lines of context before it and up to six from it on.

module AutoDebug {
  import opened PyScript
  import opened LogDiff

  /** How many leading characters of each line are compared. */
  const Width: nat := 30

  /** The prefix printAround puts before a line: an arrow on the mismatching line. */
  function Marker(current: bool): string
  {
    if current then ">>> " else "    "
  }

  /** What printAround writes for line k of a log: the line without its newline, after the
   *  arrow when k is the line at. */
  function Row(log: seq<string>, k: nat, at: nat): string
    requires k < |log|
  {
    Printed(Marker(k == at) + DropLast(log[k]))
  }

  /** What printAround writes for lines lo .. hi-1 of a log, the arrow on line at. */
  function Shown(log: seq<string>, lo: nat, hi: nat, at: nat): (w: seq<string>)
    requires lo <= hi <= |log|
  {
    seq(hi - lo, k requires 0 <= k < hi - lo => Row(log, lo + k, at))
  }

  /** Showing one more line appends that line's row. */
  lemma ShownNext(log: seq<string>, lo: nat, hi: nat, at: nat)
    requires lo <= hi < |log|
    ensures Shown(log, lo, hi + 1, at) == Shown(log, lo, hi, at) + [Row(log, hi, at)]
  {
  }

  /** Showing lines lo .. mid-1 and then mid .. hi-1 shows lines lo .. hi-1. */
  lemma ShownSplit(log: seq<string>, lo: nat, mid: nat, hi: nat, at: nat)
    requires lo <= mid <= hi <= |log|
    ensures Shown(log, lo, mid, at) + Shown(log, mid, hi, at) == Shown(log, lo, hi, at)
  {
  }

  /** The first line printAround shows: nothing is shown before a line among the first five. */
  function First(i: nat): nat
  {
    if i >= 5 then i - 5 else i
  }

  /** One past the last line printAround shows: six lines from i on, fewer at the end of the log,
   *  none when i is past it. */
  function Last(i: nat, maxLen: nat): nat
  {
    if maxLen > i then Min(i + 6, maxLen) else i
  }

  /** What printAround(log, i, maxLen) writes. */
  function Around(log: seq<string>, i: nat, maxLen: nat): seq<string>
    requires i <= |log| && maxLen <= |log|
  {
    Shown(log, First(i), Last(i, maxLen), i)
  }

  /** printAround shows five lines before line i when there are five, and then line i and up to
   *  five after it, each without its newline, with the arrow on line i alone. */
  lemma AroundShape(log: seq<string>, i: nat, maxLen: nat)
    requires i < maxLen <= |log|
    ensures |Around(log, i, maxLen)| == (if i >= 5 then 5 else 0) + Min(6, maxLen - i)
    ensures forall k :: 0 <= k < |Around(log, i, maxLen)| ==>
              Around(log, i, maxLen)[k] == Row(log, First(i) + k, i)
  {
    var lo, hi := First(i), Last(i, maxLen);
    assert Around(log, i, maxLen) == Shown(log, lo, hi, i);
  }

  /** printAround: the lines before line i, then line i and the lines after it. */
  method PrintAround(log: seq<string>, i: nat, maxLen: nat) returns (w: seq<string>)
    requires i <= |log| && maxLen <= |log|
    ensures w == Around(log, i, maxLen)
  {
    w := PrintBefore(log, i);
    var rest := PrintFrom(log, i, maxLen);
    w := w + rest;
    ShownSplit(log, First(i), i, Last(i, maxLen), i);
  }

  /** The first loop of printAround: the five lines before line i, none when there are fewer. */
  method PrintBefore(log: seq<string>, i: nat) returns (w: seq<string>)
    requires i <= |log|
    ensures w == Shown(log, First(i), i, i)
  {
    w := [];
    var ii: int := i - 5;
    while ii < i
      invariant i - 5 <= ii <= i
      invariant ii < 0 ==> ii == i - 5 && w == []
      invariant ii >= 0 ==> i >= 5 && w == Shown(log, i - 5, ii, i)
    {
      if ii < 0 {
        break;
      }
      assert Printed(Marker(false) + DropLast(log[ii])) == Row(log, ii, i);
      ShownNext(log, i - 5, ii, i);
      w := w + [Printed(Marker(false) + DropLast(log[ii]))];
      ii := ii + 1;
    }
  }

  /** The second loop of printAround: line i, with the arrow, and the five after it, stopping at
   *  maxLen. */
  method PrintFrom(log: seq<string>, i: nat, maxLen: nat) returns (w: seq<string>)
    requires i <= |log| && maxLen <= |log|
    ensures w == Shown(log, i, Last(i, maxLen), i)
  {
    w := [];
    var ii := i;
    while ii < i + 6
      invariant i <= ii <= i + 6 && (ii == i || ii <= maxLen)
      invariant w == Shown(log, i, ii, i)
    {
      if ii > maxLen - 1 {
        break;
      }
      ShownNext(log, i, ii, i);
      w := w + [Row(log, ii, i)];
      ii := ii + 1;
    }
    assert ii == Last(i, maxLen);
  }

  /** Everything the script writes for a mismatch at line k (numbered from 1 when printed). */
  function MismatchReport(b: seq<string>, m: seq<string>, k: nat): seq<string>
    requires k < |b| && k < |m|
  {
    [Printed("Mismatch at line " + Decimal(k + 1)), Printed("===== Binjgb Log =====")]
    + Around(b, k, |b|)
    + [Printed("======================\n"), Printed("===== MegaGBC Log =====")]
    + Around(m, k, |m|)
    + [Printed("======================")]
  }

  /** The arrow of printAround is on line i. */
  lemma AroundArrow(log: seq<string>, i: nat, maxLen: nat)
    requires i < maxLen <= |log|
    ensures i - First(i) < |Around(log, i, maxLen)|
    ensures Around(log, i, maxLen)[i - First(i)] == Printed(">>> " + DropLast(log[i]))
  {
    assert Around(log, i, maxLen)[i - First(i)] == Row(log, i, i);
  }

  /** Where the first excerpt sits in a report laid out as head, excerpt, middle, excerpt, tail. */
  lemma FirstExcerptAt(head: seq<string>, x: seq<string>, middle: seq<string>, y: seq<string>, tail: seq<string>,
                       j: nat)
    requires j < |x|
    ensures (head + x + middle + y + tail)[|head| + j] == x[j]
  {
  }

  /** Where the second excerpt sits in a report laid out as head, excerpt, middle, excerpt, tail. */
  lemma SecondExcerptAt(head: seq<string>, x: seq<string>, middle: seq<string>, y: seq<string>, tail: seq<string>,
                        j: nat)
    requires j < |y|
    ensures (head + x + middle + y + tail)[|head| + |x| + |middle| + j] == y[j]
  {
  }

  /** The report opens by naming the mismatching line, numbered from 1. */
  lemma ReportNamesLine(b: seq<string>, m: seq<string>, k: nat)
    requires k < |b| && k < |m|
    ensures MismatchReport(b, m, k)[0] == Printed("Mismatch at line " + Decimal(k + 1))
  {
  }

  /** The binjgb excerpt of the report puts the arrow on the mismatching line. */
  lemma ReportMarksReference(b: seq<string>, m: seq<string>, k: nat, j: nat)
    requires k < |b| && k < |m| && j == k - First(k)
    ensures MismatchReport(b, m, k)[2 + j] == Printed(">>> " + DropLast(b[k]))
  {
    AroundArrow(b, k, |b|);
    FirstExcerptAt([Printed("Mismatch at line " + Decimal(k + 1)), Printed("===== Binjgb Log =====")],
                   Around(b, k, |b|),
                   [Printed("======================\n"), Printed("===== MegaGBC Log =====")],
                   Around(m, k, |m|),
                   [Printed("======================")], j);
  }

  /** The emulator's excerpt of the report puts the arrow on the mismatching line. */
  lemma ReportMarksEmulator(b: seq<string>, m: seq<string>, k: nat, j: nat)
    requires k < |b| && k < |m| && j == k - First(k)
    ensures MismatchReport(b, m, k)[4 + |Around(b, k, |b|)| + j] == Printed(">>> " + DropLast(m[k]))
  {
    AroundArrow(m, k, |m|);
    SecondExcerptAt([Printed("Mismatch at line " + Decimal(k + 1)), Printed("===== Binjgb Log =====")],
                    Around(b, k, |b|),
                    [Printed("======================\n"), Printed("===== MegaGBC Log =====")],
                    Around(m, k, |m|),
                    [Printed("======================")], j);
  }

  /** The lines the scan compares: up to the end of b, but never the last line of m. */
  function ScanEnd(b: seq<string>, m: seq<string>): nat
    requires |m| > 0
  {
    Min(|b|, |m| - 1)
  }

  /** The run of the script on the two logs once they are read: b is binjgb's, m the emulator's.
   *  An empty m is indexed on the first line of a non-empty b. */
  function Script(b: seq<string>, m: seq<string>): Outcome
  {
    if |m| == 0 then
      (if |b| == 0 then Finished([Printed("Finished")]) else Raised(IndexError, []))
    else
      match FirstMismatch(b, m, Width, 0, ScanEnd(b, m))
      case None => Finished([Printed("Finished")])
      case Some(k) => Finished(MismatchReport(b, m, k) + [Printed("Finished")])
  }

  /** The report writes MismatchReport. */
  method Report(b: seq<string>, m: seq<string>, k: nat) returns (w: seq<string>)
    requires k < |b| && k < |m|
    ensures w == MismatchReport(b, m, k)
  {
    w := [Printed("Mismatch at line " + Decimal(k + 1)), Printed("===== Binjgb Log =====")];
    var around := PrintAround(b, k, |b|);
    w := w + around + [Printed("======================\n"), Printed("===== MegaGBC Log =====")];
    around := PrintAround(m, k, |m|);
    w := w + around + [Printed("======================")];
  }

  /** The comparison loop of the script and its final print. */
  method Compare(b: seq<string>, m: seq<string>) returns (o: Outcome)
    ensures o == Script(b, m)
  {
    var out: seq<string> := [];
    var i := 0;
    while i < |b|
      invariant i <= |b| && (|m| > 0 ==> i <= |m| - 1) && (|m| == 0 ==> i == 0)
      invariant out == []
      invariant |m| > 0 ==> FirstMismatch(b, m, Width, 0, ScanEnd(b, m)) == FirstMismatch(b, m, Width, i, ScanEnd(b, m))
    {
      if i == |m| - 1 {
        assert FirstMismatch(b, m, Width, i, ScanEnd(b, m)) == None;
        break;
      }
      if i >= |m| {
        return Raised(IndexError, out);
      }
      if Prefix(b[i], Width) != Prefix(m[i], Width) {
        var w := Report(b, m, i);
        out := out + w;
        assert FirstMismatch(b, m, Width, i, ScanEnd(b, m)) == Some(i);
        break;
      }
      i := i + 1;
    }
    out := out + [Printed("Finished")];
    o := Finished(out);
  }

  /** With the logs read, the script either stops on an empty emulator log or finishes; it
   *  reports nothing exactly when the compared lines all agree, and otherwise reports the first
   *  line that differs, every line before it agreeing. */
  lemma ScriptReportsFirstMismatch(b: seq<string>, m: seq<string>)
    ensures Script(b, m).Raised? <==> |m| == 0 && |b| > 0
    ensures Script(b, m).Finished? ==> Script(b, m).out[|Script(b, m).out| - 1] == Printed("Finished")
    ensures |m| > 0 ==>
              (Script(b, m).out == [Printed("Finished")] <==>
               forall j :: 0 <= j < ScanEnd(b, m) ==> !Differ(b, m, Width, j))
    ensures |m| > 0 && FirstMismatch(b, m, Width, 0, ScanEnd(b, m)).Some? ==>
              var k := FirstMismatch(b, m, Width, 0, ScanEnd(b, m)).value;
              k < ScanEnd(b, m) && Differ(b, m, Width, k) &&
              (forall j :: 0 <= j < k ==> !Differ(b, m, Width, j)) &&
              Script(b, m).out == MismatchReport(b, m, k) + [Printed("Finished")]
  {
    if |m| > 0 {
      FirstMismatchExactly(b, m, Width, 0, ScanEnd(b, m));
    }
  }

  /** The last line of the emulator's log is never compared: changing it changes nothing the
   *  scan finds. */
  lemma LastLineNeverCompared(b: seq<string>, m: seq<string>, m': seq<string>)
    requires |m| == |m'| > 0 && m[..|m| - 1] == m'[..|m| - 1]
    ensures FirstMismatch(b, m, Width, 0, ScanEnd(b, m)) == FirstMismatch(b, m', Width, 0, ScanEnd(b, m'))
  {
    var e := ScanEnd(b, m);
    assert m[..e] == m[..|m| - 1][..e] && m'[..e] == m'[..|m| - 1][..e];
    MismatchesLocal(b, m, b, m', Width, 0, e);
  }
}
