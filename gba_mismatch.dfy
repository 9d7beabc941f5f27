// debug/test_scripts/gbamismatch.py: compares the mGBA trace with the emulator's on the first
// 170 characters of each line, over the first maxLine lines, and after each line that differs
// asks whether to go on; any answer but "y" exits with status 0.

module GbaMismatch {
  import opened PyScript
  import opened LogDiff
  import AutoDebugPrompt

  /** How many leading characters of each line are compared. */
  const Width: nat := 170

  /** What input() writes before it reads an answer. */
  const Prompt: string := "Continue? (y/n): "

  /** What the script prints when the loop runs to its end. */
  const Done: string := "No Mismatches Found :D"

  /** `len(s1) > len(s2) and len(s2) or len(s1)`: the `and/or` idiom falls through to len(s1)
   *  when len(s2) is 0. */
  function MaxLine(s1: seq<string>, s2: seq<string>): nat
  {
    if |s1| > |s2| && |s2| != 0 then |s2| else |s1|
  }

  /** maxLine is the length of the shorter log, except that an empty s2 gives len(s1). */
  lemma MaxLineIsShorter(s1: seq<string>, s2: seq<string>)
    ensures |s2| > 0 ==> MaxLine(s1, s2) == Min(|s1|, |s2|)
    ensures |s2| == 0 ==> MaxLine(s1, s2) == |s1|
    ensures MaxLine(s1, s2) <= |s1|
  {
  }

  /** What the script writes at a mismatch at line k: the line number from 1, the previous and the
   *  current line of both logs (s[k - 1], which is the last line when k is 0), then the prompt.
   *  The lines keep their newlines. */
  function Report(s1: seq<string>, s2: seq<string>, k: nat): (w: seq<string>)
    requires k < |s1| && k < |s2|
    ensures |w| == 5 && w[4] == Prompt
  {
    [Printed("Mismatch Occured at Line " + Decimal(k + 1) + ":"),
     Printed("MGBA:     " + At(s1, k - 1) + "\n\n" + s1[k]),
     Printed("---------------------------------"),
     Printed("MegaGBA:  " + At(s2, k - 1) + "\n\n" + s2[k]),
     Prompt]
  }

  /** At the first line, the "previous" line the report shows is the last line of each log. */
  lemma ReportWrapsAtFirstLine(s1: seq<string>, s2: seq<string>)
    requires 0 < |s1| && 0 < |s2|
    ensures Report(s1, s2, 0)[1] == Printed("MGBA:     " + s1[|s1| - 1] + "\n\n" + s1[0])
    ensures Report(s1, s2, 0)[3] == Printed("MegaGBA:  " + s2[|s2| - 1] + "\n\n" + s2[0])
  {
  }

  /** What the script writes at a mismatch at line k, for every line k < e. */
  function Asked(s1: seq<string>, s2: seq<string>, e: nat): (t: seq<seq<string>>)
    requires e <= |s1| && e <= |s2|
    ensures |t| == e
  {
    seq(e, k requires 0 <= k < e => Report(s1, s2, k))
  }

  /** The run of the loop from line i up to line e, with t[k] what it writes at a mismatch at
   *  line k and answers the lines standard input still holds: each line whose first Width
   *  characters differ is reported, then an answer is read; anything but "y" exits with 0. */
  function Scan(s1: seq<string>, s2: seq<string>, t: seq<seq<string>>, i: nat, e: nat,
                answers: seq<string>): Outcome
    requires e <= |s1| && e <= |s2| && e <= |t|
    decreases e - i
  {
    if i >= e then Finished([Printed(Done)])
    else if !Differ(s1, s2, Width, i) then Scan(s1, s2, t, i + 1, e, answers)
    else if answers == [] then Raised(EOFError, t[i])
    else if answers[0] != "y" then Exited(0, t[i])
    else Prepend(t[i], Scan(s1, s2, t, i + 1, e, answers[1..]))
  }

  /** The run of the script on the two logs once they are read, s1 mGBA's and s2 the emulator's,
   *  with the answers typed at the prompts. An empty s2 beside a non-empty s1 is indexed on the
   *  first pass of the loop. */
  function Script(s1: seq<string>, s2: seq<string>, answers: seq<string>): Outcome
  {
    if |s2| == 0 then
      (if |s1| == 0 then Finished([Printed(Done)]) else Raised(IndexError, []))
    else
      var e := Min(|s1|, |s2|);
      Scan(s1, s2, Asked(s1, s2, e), 0, e, answers)
  }

  /** The prints and the prompt at a mismatch at line k. */
  method PrintMismatch(s1: seq<string>, s2: seq<string>, k: nat) returns (w: seq<string>)
    requires k < |s1| && k < |s2|
    ensures w == Report(s1, s2, k)
  {
    w := [Printed("Mismatch Occured at Line " + Decimal(k + 1) + ":"),
          Printed("MGBA:     " + At(s1, k - 1) + "\n\n" + s1[k]),
          Printed("---------------------------------"),
          Printed("MegaGBA:  " + At(s2, k - 1) + "\n\n" + s2[k]),
          Prompt];
  }

  /** A line that differs is reported, and the answer "y" goes on to the next line. */
  lemma ScanContinues(s1: seq<string>, s2: seq<string>, t: seq<seq<string>>, i: nat, e: nat, rest: seq<string>)
    requires e <= |s1| && e <= |s2| && e <= |t| && i < e && Differ(s1, s2, Width, i)
    requires rest != [] && rest[0] == "y"
    ensures Scan(s1, s2, t, i, e, rest) == Prepend(t[i], Scan(s1, s2, t, i + 1, e, rest[1..]))
  {
  }

  /** The loop of the script and its final print. */
  method Compare(s1: seq<string>, s2: seq<string>, answers: seq<string>) returns (o: Outcome)
    ensures o == Script(s1, s2, answers)
  {
    var maxLine := MaxLine(s1, s2);
    MaxLineIsShorter(s1, s2);
    ghost var e := Min(|s1|, |s2|);
    ghost var t := Asked(s1, s2, e);
    ghost var goal := Script(s1, s2, answers);
    var out: seq<string> := [];
    var a := 0;
    var line := 0;
    while line < maxLine
      invariant line <= maxLine <= |s1| && a <= |answers|
      invariant |s2| == 0 ==> line == 0 && out == []
      invariant |s2| > 0 ==> maxLine == e && Prepend(out, Scan(s1, s2, t, line, e, answers[a..])) == goal
    {
      if line >= |s2| {
        return Raised(IndexError, out);
      }
      if Prefix(s1[line], Width) != Prefix(s2[line], Width) {
        ghost var before := out;
        var w := PrintMismatch(s1, s2, line);
        assert w == t[line];
        out := out + w;
        if a == |answers| {
          return Raised(EOFError, out);
        }
        ghost var rest := answers[a..];
        var c := answers[a];
        a := a + 1;
        if c != "y" {
          return Exited(0, out);
        }
        assert rest[1..] == answers[a..];
        ScanContinues(s1, s2, t, line, e, rest);
        PrependTwice(before, w, Scan(s1, s2, t, line + 1, e, answers[a..]));
      }
      line := line + 1;
    }
    out := out + [Printed(Done)];
    o := Finished(out);
  }

  /** When the answer at every mismatch is "y", the loop writes what it writes at every
   *  mismatching line, in order, and then the "no mismatches" line all the same. */
  lemma {:induction false} ReportsAllMismatches(s1: seq<string>, s2: seq<string>, t: seq<seq<string>>,
                                                i: nat, e: nat, answers: seq<string>)
    requires i <= e <= |s1| && e <= |s2| && e <= |t|
    requires |Mismatches(s1, s2, Width, i, e)| <= |answers|
    requires forall p :: 0 <= p < |Mismatches(s1, s2, Width, i, e)| ==> answers[p] == "y"
    ensures Scan(s1, s2, t, i, e, answers)
         == Finished(AutoDebugPrompt.Reports(t, Mismatches(s1, s2, Width, i, e)) + [Printed(Done)])
    decreases e - i
  {
    if i < e {
      MismatchesStep(s1, s2, Width, i, e);
      if !Differ(s1, s2, Width, i) {
        ReportsAllMismatches(s1, s2, t, i + 1, e, answers);
      } else {
        YesInTail(answers, |Mismatches(s1, s2, Width, i + 1, e)|);
        ReportsAllMismatches(s1, s2, t, i + 1, e, answers[1..]);
        ScanContinues(s1, s2, t, i, e, answers);
        FinishedAfter(t, i, Mismatches(s1, s2, Width, i, e), Mismatches(s1, s2, Width, i + 1, e),
                      Scan(s1, s2, t, i, e, answers), Scan(s1, s2, t, i + 1, e, answers[1..]));
      }
    } else {
      assert AutoDebugPrompt.Reports(t, []) + [Printed(Done)] == [Printed(Done)];
    }
  }

  /** Answers whose first n + 1 are "y": the first is, and so are the first n of the rest. */
  lemma YesInTail(answers: seq<string>, n: nat)
    requires n < |answers| && forall p :: 0 <= p <= n ==> answers[p] == "y"
    ensures answers[0] == "y" && forall p :: 0 <= p < n ==> answers[1..][p] == "y"
  {
    forall p | 0 <= p < n ensures answers[1..][p] == "y" {
      assert answers[1..][p] == answers[p + 1];
    }
  }

  /** What the loop writes at line i, then at the mismatches ks' of the rest and the closing
   *  line, is what it writes at the mismatches of the list that starts with line i. */
  lemma FinishedAfter(t: seq<seq<string>>, i: nat, ks: seq<nat>, ks': seq<nat>, d: Outcome, d': Outcome)
    requires i < |t| && ks == [i] + ks'
    requires d == Prepend(t[i], d') && d' == Finished(AutoDebugPrompt.Reports(t, ks') + [Printed(Done)])
    ensures d == Finished(AutoDebugPrompt.Reports(t, ks) + [Printed(Done)])
  {
    assert ks[0] == i && ks[1..] == ks';
    AutoDebugPrompt.ReportsHead(t, ks);
    Appended(t[i], AutoDebugPrompt.Reports(t, ks'), [Printed(Done)]);
  }

  /** The loop reports exactly the mismatching lines up to the first answer that is not "y":
   *  when the first j answers are "y" and answer j is not, the run writes what it writes at
   *  mismatches 0 to j and exits with status 0. */
  lemma {:induction false} ReportsUpToExit(s1: seq<string>, s2: seq<string>, t: seq<seq<string>>,
                                           i: nat, e: nat, answers: seq<string>, j: nat)
    requires i <= e <= |s1| && e <= |s2| && e <= |t|
    requires j < |Mismatches(s1, s2, Width, i, e)| && j < |answers|
    requires forall p :: 0 <= p < j ==> answers[p] == "y"
    requires answers[j] != "y"
    ensures Scan(s1, s2, t, i, e, answers)
         == Exited(0, AutoDebugPrompt.Reports(t, Mismatches(s1, s2, Width, i, e)[..j + 1]))
    decreases e - i
  {
    MismatchesStep(s1, s2, Width, i, e);
    if !Differ(s1, s2, Width, i) {
      ReportsUpToExit(s1, s2, t, i + 1, e, answers, j);
    } else if j == 0 {
      ExitedAfter(t, i, Mismatches(s1, s2, Width, i, e), Mismatches(s1, s2, Width, i + 1, e), 0,
                  Scan(s1, s2, t, i, e, answers), Exited(0, []));
    } else {
      YesInTail(answers, j - 1);
      assert answers[1..][j - 1] == answers[j];
      ReportsUpToExit(s1, s2, t, i + 1, e, answers[1..], j - 1);
      ExitStep(s1, s2, t, i, e, answers, j);
    }
  }

  /** The step of ReportsUpToExit at a line that differs and is answered "y". */
  lemma ExitStep(s1: seq<string>, s2: seq<string>, t: seq<seq<string>>, i: nat, e: nat,
                 answers: seq<string>, j: nat)
    requires i < e <= |s1| && e <= |s2| && e <= |t| && Differ(s1, s2, Width, i)
    requires 0 < j < |Mismatches(s1, s2, Width, i, e)| && j < |answers| && answers[0] == "y"
    requires Scan(s1, s2, t, i + 1, e, answers[1..])
          == Exited(0, AutoDebugPrompt.Reports(t, Mismatches(s1, s2, Width, i + 1, e)[..j]))
    ensures Scan(s1, s2, t, i, e, answers)
         == Exited(0, AutoDebugPrompt.Reports(t, Mismatches(s1, s2, Width, i, e)[..j + 1]))
  {
    MismatchesStep(s1, s2, Width, i, e);
    ScanContinues(s1, s2, t, i, e, answers);
    ExitedAfter(t, i, Mismatches(s1, s2, Width, i, e), Mismatches(s1, s2, Width, i + 1, e), j,
                Scan(s1, s2, t, i, e, answers), Scan(s1, s2, t, i + 1, e, answers[1..]));
  }

  /** What the loop writes at line i, then up to mismatch j of the rest before it exits, is what
   *  it writes up to mismatch j + 1 of the list that starts with line i. */
  lemma ExitedAfter(t: seq<seq<string>>, i: nat, ks: seq<nat>, ks': seq<nat>, j: nat, d: Outcome, d': Outcome)
    requires i < |t| && ks == [i] + ks' && j <= |ks'|
    requires d == Prepend(t[i], d') && d' == Exited(0, AutoDebugPrompt.Reports(t, ks'[..j]))
    ensures d == Exited(0, AutoDebugPrompt.Reports(t, ks[..j + 1]))
  {
    AutoDebugPrompt.ReportsCons(t, i, ks, ks', j);
  }

  /** A scan that meets a mismatch writes more than a single line. */
  lemma {:induction false} ScanReports(s1: seq<string>, s2: seq<string>, i: nat, e: nat, answers: seq<string>)
    requires e <= |s1| && e <= |s2| && FirstMismatch(s1, s2, Width, i, e).Some?
    ensures |Scan(s1, s2, Asked(s1, s2, e), i, e, answers).out| > 1
    decreases e - i
  {
    if !Differ(s1, s2, Width, i) {
      ScanReports(s1, s2, i + 1, e, answers);
    }
  }

  /** With a non-empty emulator log the script writes nothing but the "no mismatches" line
   *  exactly when every line of the shorter log agrees with the other's on its first 170
   *  characters; it never exits with a status other than 0. */
  lemma SilentIffAgree(s1: seq<string>, s2: seq<string>, answers: seq<string>)
    requires |s2| > 0
    ensures Script(s1, s2, answers).out == [Printed(Done)] <==>
            forall k :: 0 <= k < Min(|s1|, |s2|) ==> !Differ(s1, s2, Width, k)
  {
    var e := Min(|s1|, |s2|);
    FirstMismatchExactly(s1, s2, Width, 0, e);
    if FirstMismatch(s1, s2, Width, 0, e).None? {
      MismatchesStartWithFirst(s1, s2, Width, 0, e);
      ReportsAllMismatches(s1, s2, Asked(s1, s2, e), 0, e, answers);
      assert AutoDebugPrompt.Reports(Asked(s1, s2, e), []) + [Printed(Done)] == [Printed(Done)];
    } else {
      ScanReports(s1, s2, 0, e, answers);
    }
  }

  /** Every exit of the loop has status 0. */
  lemma {:induction false} ExitsWithZero(s1: seq<string>, s2: seq<string>, t: seq<seq<string>>, i: nat, e: nat,
                                         answers: seq<string>)
    requires e <= |s1| && e <= |s2| && e <= |t|
    ensures Scan(s1, s2, t, i, e, answers).Exited? ==> Scan(s1, s2, t, i, e, answers).code == 0
    decreases e - i
  {
    if i < e {
      if !Differ(s1, s2, Width, i) {
        ExitsWithZero(s1, s2, t, i + 1, e, answers);
      } else if answers != [] && answers[0] == "y" {
        ExitsWithZero(s1, s2, t, i + 1, e, answers[1..]);
      }
    }
  }
}
