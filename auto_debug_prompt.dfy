// debug/test_scripts/autodebug.py: the same comparison as debug/autodebug.py, on the first 20
// characters of each line, which does not stop at the first mismatch: after each report it asks
// whether to go on and stops only when the answer is "n".

module AutoDebugPrompt {
  import opened PyScript
  import opened LogDiff
  import AutoDebug

  /** How many leading characters of each line are compared (MaxCharPerLine). */
  const Width: nat := 20

  /** What input() writes before it reads an answer. */
  const Prompt: string := "Continue? (y/n)"

  /** What the script writes at a mismatch at line k, for every line k < e: the report of
   *  debug/autodebug.py, then the prompt. */
  function Asked(b: seq<string>, m: seq<string>, e: nat): (t: seq<seq<string>>)
    requires e <= |b| && e <= |m|
    ensures |t| == e
  {
    seq(e, k requires 0 <= k < e => AutoDebug.MismatchReport(b, m, k) + [Prompt])
  }

  /** What the scan writes for the mismatches ks, t[k] being what it writes at line k (the
   *  scan only lists lines of t, so the empty output for a line past t is never used). */
  function Reports(t: seq<seq<string>>, ks: seq<nat>): seq<string>
    decreases |ks|
  {
    if ks == [] then [] else (if ks[0] < |t| then t[ks[0]] else []) + Reports(t, ks[1..])
  }

  /** The run of the scan from line i up to line e, with t[k] what it writes at a mismatch at
   *  line k and answers the lines standard input still holds: each line whose first Width
   *  characters differ is reported, then an answer is read; "n" ends the scan. */
  function Dialogue(b: seq<string>, m: seq<string>, t: seq<seq<string>>, i: nat, e: nat,
                    answers: seq<string>): Outcome
    requires e <= |b| && e <= |m| && e <= |t|
    decreases e - i
  {
    if i >= e then Finished([Printed("Finished")])
    else if !Differ(b, m, Width, i) then Dialogue(b, m, t, i + 1, e, answers)
    else if answers == [] then Raised(EOFError, t[i])
    else if answers[0] == "n" then Finished(t[i] + [Printed("Finished")])
    else Prepend(t[i], Dialogue(b, m, t, i + 1, e, answers[1..]))
  }

  /** The run of the script on the two logs once they are read, b binjgb's and m the emulator's,
   *  with the answers typed at the prompts. */
  function Script(b: seq<string>, m: seq<string>, answers: seq<string>): Outcome
  {
    if |m| == 0 then
      (if |b| == 0 then Finished([Printed("Finished")]) else Raised(IndexError, []))
    else
      Dialogue(b, m, Asked(b, m, AutoDebug.ScanEnd(b, m)), 0, AutoDebug.ScanEnd(b, m), answers)
  }

  /** A line that agrees is passed over. */
  lemma DialogueSkips(b: seq<string>, m: seq<string>, t: seq<seq<string>>, i: nat, e: nat, rest: seq<string>)
    requires e <= |b| && e <= |m| && e <= |t| && i < e && !Differ(b, m, Width, i)
    ensures Dialogue(b, m, t, i, e, rest) == Dialogue(b, m, t, i + 1, e, rest)
  {
  }

  /** A line that differs is reported, and an answer other than "n" goes on to the next line. */
  lemma DialogueContinues(b: seq<string>, m: seq<string>, t: seq<seq<string>>, i: nat, e: nat, rest: seq<string>)
    requires e <= |b| && e <= |m| && e <= |t| && i < e && Differ(b, m, Width, i)
    requires rest != [] && rest[0] != "n"
    ensures Dialogue(b, m, t, i, e, rest) == Prepend(t[i], Dialogue(b, m, t, i + 1, e, rest[1..]))
  {
  }

  /** A line that differs is reported, and the answer "n" ends the scan. */
  lemma DialogueStops(b: seq<string>, m: seq<string>, t: seq<seq<string>>, i: nat, e: nat, rest: seq<string>)
    requires e <= |b| && e <= |m| && e <= |t| && i < e && Differ(b, m, Width, i)
    requires rest != [] && rest[0] == "n"
    ensures Dialogue(b, m, t, i, e, rest) == Finished(t[i] + [Printed("Finished")])
  {
  }

  /** The comparison loop of the script and its final print. */
  method Compare(b: seq<string>, m: seq<string>, answers: seq<string>) returns (o: Outcome)
    ensures o == Script(b, m, answers)
  {
    ghost var e := if |m| > 0 then AutoDebug.ScanEnd(b, m) else 0;
    ghost var t := Asked(b, m, e);
    ghost var goal := Script(b, m, answers);
    var out: seq<string> := [];
    var a := 0;
    var i := 0;
    while i < |b|
      invariant i <= |b| && a <= |answers| && (|m| > 0 ==> i <= e) && (|m| == 0 ==> i == 0 && out == [])
      invariant |m| > 0 ==> Prepend(out, Dialogue(b, m, t, i, e, answers[a..])) == goal
    {
      if i == |m| - 1 {
        break;
      }
      if i >= |m| {
        return Raised(IndexError, out);
      }
      if Prefix(b[i], Width) != Prefix(m[i], Width) {
        ghost var before := out;
        var w := AutoDebug.Report(b, m, i);
        w := w + [Prompt];
        assert w == t[i];
        out := out + w;
        if a == |answers| {
          return Raised(EOFError, out);
        }
        ghost var rest := answers[a..];
        var c := answers[a];
        a := a + 1;
        if c == "n" {
          DialogueStops(b, m, t, i, e, rest);
          Appended(before, w, [Printed("Finished")]);
          out := out + [Printed("Finished")];
          return Finished(out);
        }
        assert rest[1..] == answers[a..];
        DialogueContinues(b, m, t, i, e, rest);
        PrependTwice(before, w, Dialogue(b, m, t, i + 1, e, answers[a..]));
      } else if |m| > 0 {
        DialogueSkips(b, m, t, i, e, answers[a..]);
      }
      i := i + 1;
    }
    out := out + [Printed("Finished")];
    o := Finished(out);
  }

  /** When no answer is "n", the scan writes what it writes at every mismatching line, in order,
   *  and finishes. */
  lemma {:induction false} ReportsAllMismatches(b: seq<string>, m: seq<string>, t: seq<seq<string>>,
                                                i: nat, e: nat, answers: seq<string>)
    requires i <= e <= |b| && e <= |m| && e <= |t|
    requires |Mismatches(b, m, Width, i, e)| <= |answers|
    requires forall p :: 0 <= p < |Mismatches(b, m, Width, i, e)| ==> answers[p] != "n"
    ensures Dialogue(b, m, t, i, e, answers)
         == Finished(Reports(t, Mismatches(b, m, Width, i, e)) + [Printed("Finished")])
    decreases e - i
  {
    if i < e {
      MismatchesStep(b, m, Width, i, e);
      var ks, ks' := Mismatches(b, m, Width, i, e), Mismatches(b, m, Width, i + 1, e);
      if !Differ(b, m, Width, i) {
        ReportsAllMismatches(b, m, t, i + 1, e, answers);
      } else {
        assert ks[0] == i && ks[1..] == ks';
        assert answers[0] != "n";
        forall p | 0 <= p < |ks'|
          ensures answers[1..][p] != "n"
        {
          assert answers[1..][p] == answers[p + 1];
        }
        ReportsAllMismatches(b, m, t, i + 1, e, answers[1..]);
        Appended(t[i], Reports(t, ks'), [Printed("Finished")]);
      }
    } else {
      assert Reports(t, []) + [Printed("Finished")] == [Printed("Finished")];
    }
  }

  /** The scan reports exactly the mismatching lines up to the first answer "n": when the first
   *  j answers go on and there is no answer j, the run writes what it writes at mismatches 0 to
   *  j and raises EOFError. */
  lemma {:induction false} ReportsUpToEof(b: seq<string>, m: seq<string>, t: seq<seq<string>>,
                                          i: nat, e: nat, answers: seq<string>)
    requires i <= e <= |b| && e <= |m| && e <= |t|
    requires |answers| < |Mismatches(b, m, Width, i, e)| && "n" !in answers
    ensures Dialogue(b, m, t, i, e, answers)
         == Raised(EOFError, Reports(t, Mismatches(b, m, Width, i, e)[..|answers| + 1]))
    decreases e - i
  {
    MismatchesStep(b, m, Width, i, e);
    if !Differ(b, m, Width, i) {
      DialogueSkips(b, m, t, i, e, answers);
      ReportsUpToEof(b, m, t, i + 1, e, answers);
    } else if answers == [] {
      ReportsFirst(b, m, t, i, e);
    } else {
      NoStopInTail(answers);
      ReportsUpToEof(b, m, t, i + 1, e, answers[1..]);
      EofStep(b, m, t, i, e, answers);
    }
  }

  /** At a line that differs with standard input at its end, the scan writes what it writes at
   *  that line, the first mismatch of the range. */
  lemma ReportsFirst(b: seq<string>, m: seq<string>, t: seq<seq<string>>, i: nat, e: nat)
    requires i < e <= |b| && e <= |m| && e <= |t| && Differ(b, m, Width, i)
    ensures Dialogue(b, m, t, i, e, []) == Raised(EOFError, Reports(t, Mismatches(b, m, Width, i, e)[..1]))
    ensures Reports(t, Mismatches(b, m, Width, i, e)[..1]) == t[i]
  {
    MismatchesStep(b, m, Width, i, e);
    var ks := Mismatches(b, m, Width, i, e);
    assert ks[..1] == [i] && [i][1..] == [];
    assert Reports(t, ks[..1]) == t[i] + Reports(t, []);
  }

  /** Answers without "n" have none after the first either. */
  lemma NoStopInTail(answers: seq<string>)
    requires answers != [] && "n" !in answers
    ensures answers[0] != "n" && "n" !in answers[1..]
  {
    forall c | c in answers[1..] ensures c != "n" {
      assert c in answers;
    }
  }

  /** The step of ReportsUpToEof at a line that differs: an answer that goes on, then the rest of
   *  the scan up to the end of standard input. */
  lemma EofStep(b: seq<string>, m: seq<string>, t: seq<seq<string>>, i: nat, e: nat, answers: seq<string>)
    requires i < e <= |b| && e <= |m| && e <= |t| && Differ(b, m, Width, i)
    requires 0 < |answers| < |Mismatches(b, m, Width, i, e)| && answers[0] != "n"
    requires Dialogue(b, m, t, i + 1, e, answers[1..])
          == Raised(EOFError, Reports(t, Mismatches(b, m, Width, i + 1, e)[..|answers|]))
    ensures Dialogue(b, m, t, i, e, answers)
         == Raised(EOFError, Reports(t, Mismatches(b, m, Width, i, e)[..|answers| + 1]))
  {
    MismatchesStep(b, m, Width, i, e);
    DialogueContinues(b, m, t, i, e, answers);
    RaisedAfter(t, i, Mismatches(b, m, Width, i, e), Mismatches(b, m, Width, i + 1, e), |answers|,
                Dialogue(b, m, t, i, e, answers), Dialogue(b, m, t, i + 1, e, answers[1..]));
  }

  /** What the scan writes at line i, then up to mismatch j of the rest and the end of standard
   *  input, is what it writes up to mismatch j + 1 of the list that starts with line i. */
  lemma RaisedAfter(t: seq<seq<string>>, i: nat, ks: seq<nat>, ks': seq<nat>, j: nat, d: Outcome, d': Outcome)
    requires i < |t| && ks == [i] + ks' && j <= |ks'|
    requires d == Prepend(t[i], d') && d' == Raised(EOFError, Reports(t, ks'[..j]))
    ensures d == Raised(EOFError, Reports(t, ks[..j + 1]))
  {
    ReportsCons(t, i, ks, ks', j);
  }

  /** Mismatches 0 to j + 1 of a list that starts with line i: line i, then mismatches 0 to j
   *  of the rest. */
  lemma ReportsCons(t: seq<seq<string>>, i: nat, ks: seq<nat>, ks': seq<nat>, j: nat)
    requires i < |t| && ks == [i] + ks' && j <= |ks'|
    ensures Reports(t, ks[..j + 1]) == t[i] + Reports(t, ks'[..j])
  {
    var head := ks[..j + 1];
    assert head == [i] + ks'[..j];
    assert head[0] == i && head[1..] == ks'[..j];
    ReportsHead(t, head);
  }

  /** The scan writes what it writes at the first listed mismatch, then at the others. */
  lemma ReportsHead(t: seq<seq<string>>, ks: seq<nat>)
    requires ks != [] && ks[0] < |t|
    ensures Reports(t, ks) == t[ks[0]] + Reports(t, ks[1..])
  {
  }

  /** The scan reports exactly the mismatching lines up to the first answer "n": when the first
   *  j answers go on and answer j is "n", the run writes what it writes at mismatches 0 to j and
   *  finishes. */
  lemma {:induction false} ReportsUpToStop(b: seq<string>, m: seq<string>, t: seq<seq<string>>,
                                           i: nat, e: nat, answers: seq<string>, j: nat)
    requires i <= e <= |b| && e <= |m| && e <= |t|
    requires j < |Mismatches(b, m, Width, i, e)| && j < |answers|
    requires "n" !in answers[..j] && answers[j] == "n"
    ensures Dialogue(b, m, t, i, e, answers)
         == Finished(Reports(t, Mismatches(b, m, Width, i, e)[..j + 1]) + [Printed("Finished")])
    decreases e - i
  {
    MismatchesStep(b, m, Width, i, e);
    if !Differ(b, m, Width, i) {
      DialogueSkips(b, m, t, i, e, answers);
      ReportsUpToStop(b, m, t, i + 1, e, answers, j);
    } else if j == 0 {
      ReportsFirst(b, m, t, i, e);
      DialogueStops(b, m, t, i, e, answers);
    } else {
      StopInTail(answers, j);
      ReportsUpToStop(b, m, t, i + 1, e, answers[1..], j - 1);
      StopStep(b, m, t, i, e, answers, j);
    }
  }

  /** When answer j > 0 is the first "n", answer j - 1 of the rest is. */
  lemma StopInTail(answers: seq<string>, j: nat)
    requires 0 < j < |answers| && "n" !in answers[..j] && answers[j] == "n"
    ensures answers[0] != "n" && "n" !in answers[1..][..j - 1] && answers[1..][j - 1] == "n"
  {
    assert answers[..j][0] == answers[0];
    assert answers[..j] == [answers[0]] + answers[1..][..j - 1];
  }

  /** The step of ReportsUpToStop at a line that differs: an answer that goes on, then the rest
   *  of the scan up to the answer "n". */
  lemma StopStep(b: seq<string>, m: seq<string>, t: seq<seq<string>>, i: nat, e: nat,
                 answers: seq<string>, j: nat)
    requires i < e <= |b| && e <= |m| && e <= |t| && Differ(b, m, Width, i)
    requires 0 < j < |Mismatches(b, m, Width, i, e)| && j < |answers| && answers[0] != "n"
    requires Dialogue(b, m, t, i + 1, e, answers[1..])
          == Finished(Reports(t, Mismatches(b, m, Width, i + 1, e)[..j]) + [Printed("Finished")])
    ensures Dialogue(b, m, t, i, e, answers)
         == Finished(Reports(t, Mismatches(b, m, Width, i, e)[..j + 1]) + [Printed("Finished")])
  {
    MismatchesStep(b, m, Width, i, e);
    DialogueContinues(b, m, t, i, e, answers);
    FinishedAfter(t, i, Mismatches(b, m, Width, i, e), Mismatches(b, m, Width, i + 1, e), j,
                  Dialogue(b, m, t, i, e, answers), Dialogue(b, m, t, i + 1, e, answers[1..]));
  }

  /** What the scan writes at line i, then up to mismatch j of the rest and "Finished", is what
   *  it writes up to mismatch j + 1 of the list that starts with line i, then "Finished". */
  lemma FinishedAfter(t: seq<seq<string>>, i: nat, ks: seq<nat>, ks': seq<nat>, j: nat, d: Outcome, d': Outcome)
    requires i < |t| && ks == [i] + ks' && j <= |ks'|
    requires d == Prepend(t[i], d') && d' == Finished(Reports(t, ks'[..j]) + [Printed("Finished")])
    ensures d == Finished(Reports(t, ks[..j + 1]) + [Printed("Finished")])
  {
    ReportsCons(t, i, ks, ks', j);
    Appended(t[i], Reports(t, ks'[..j]), [Printed("Finished")]);
  }

  /** A scan that meets a mismatch writes more than a single line. */
  lemma {:induction false} DialogueReports(b: seq<string>, m: seq<string>, i: nat, e: nat, answers: seq<string>)
    requires e <= |b| && e <= |m| && FirstMismatch(b, m, Width, i, e).Some?
    ensures |Dialogue(b, m, Asked(b, m, e), i, e, answers).out| > 1
    decreases e - i
  {
    if !Differ(b, m, Width, i) {
      DialogueReports(b, m, i + 1, e, answers);
    } else {
      assert |Asked(b, m, e)[i]| > 1;
    }
  }

  /** With a non-empty emulator log the script writes nothing but "Finished" exactly when every
   *  compared line agrees. */
  lemma SilentIffAgree(b: seq<string>, m: seq<string>, answers: seq<string>)
    requires |m| > 0
    ensures Script(b, m, answers).out == [Printed("Finished")] <==>
            forall k :: 0 <= k < AutoDebug.ScanEnd(b, m) ==> !Differ(b, m, Width, k)
  {
    var e := AutoDebug.ScanEnd(b, m);
    FirstMismatchExactly(b, m, Width, 0, e);
    if FirstMismatch(b, m, Width, 0, e).None? {
      MismatchesStartWithFirst(b, m, Width, 0, e);
      ReportsAllMismatches(b, m, Asked(b, m, e), 0, e, answers);
      assert Reports(Asked(b, m, e), []) + [Printed("Finished")] == [Printed("Finished")];
    } else {
      DialogueReports(b, m, 0, e, answers);
    }
  }
}
