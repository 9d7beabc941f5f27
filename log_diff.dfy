// The comparison the three trace-diff scripts under debug/ share: two logs are read as lists
// of lines and compared position by position, line k of one against line k of the other, on
// a fixed number of leading characters. There is no resynchronisation after a difference.

module LogDiff {
  import opened PyScript

  /** Line k of the two logs differs in its first width characters (l1 != l2 in the scripts). */
  predicate Differ(a: seq<string>, b: seq<string>, width: nat, k: nat)
    requires k < |a| && k < |b|
  {
    Prefix(a[k], width) != Prefix(b[k], width)
  }

  /** Only the first width characters count: lines at least that long differ exactly when their
   *  first width characters do, whatever follows. */
  lemma DifferOnPrefix(a: seq<string>, b: seq<string>, width: nat, k: nat)
    requires k < |a| && k < |b|
    requires |a[k]| >= width && |b[k]| >= width
    ensures Differ(a, b, width, k) <==> a[k][..width] != b[k][..width]
  {
  }

  /** The first index in [lo, hi) at which the logs differ. */
  function FirstMismatch(a: seq<string>, b: seq<string>, width: nat, lo: nat, hi: nat): (r: Option<nat>)
    requires hi <= |a| && hi <= |b|
    ensures r.Some? ==> lo <= r.value < hi
    decreases hi - lo
  {
    if lo >= hi then None
    else if Differ(a, b, width, lo) then Some(lo)
    else FirstMismatch(a, b, width, lo + 1, hi)
  }

  /** FirstMismatch finds the smallest differing index of the range, and finds nothing exactly
   *  when no line of the range differs. */
  lemma {:induction false} FirstMismatchExactly(a: seq<string>, b: seq<string>, width: nat, lo: nat, hi: nat)
    requires hi <= |a| && hi <= |b|
    ensures FirstMismatch(a, b, width, lo, hi).Some? ==>
              lo <= FirstMismatch(a, b, width, lo, hi).value < hi &&
              Differ(a, b, width, FirstMismatch(a, b, width, lo, hi).value) &&
              forall j :: lo <= j < FirstMismatch(a, b, width, lo, hi).value ==> !Differ(a, b, width, j)
    ensures FirstMismatch(a, b, width, lo, hi).None? <==>
              forall j :: lo <= j < hi ==> !Differ(a, b, width, j)
    decreases hi - lo
  {
    if lo < hi && !Differ(a, b, width, lo) {
      FirstMismatchExactly(a, b, width, lo + 1, hi);
    }
  }

  /** Every index in [lo, hi) at which the logs differ, in increasing order. */
  function Mismatches(a: seq<string>, b: seq<string>, width: nat, lo: nat, hi: nat): (ks: seq<nat>)
    requires hi <= |a| && hi <= |b|
    ensures forall p :: 0 <= p < |ks| ==> lo <= ks[p] < hi
    decreases hi - lo
  {
    if lo >= hi then []
    else (if Differ(a, b, width, lo) then [lo] else []) + Mismatches(a, b, width, lo + 1, hi)
  }

  /** One step of the scan: the first line of the range is listed when it differs. */
  lemma MismatchesStep(a: seq<string>, b: seq<string>, width: nat, lo: nat, hi: nat)
    requires lo < hi <= |a| && hi <= |b|
    ensures Mismatches(a, b, width, lo, hi)
         == if Differ(a, b, width, lo) then [lo] + Mismatches(a, b, width, lo + 1, hi)
            else Mismatches(a, b, width, lo + 1, hi)
  {
    assert [] + Mismatches(a, b, width, lo + 1, hi) == Mismatches(a, b, width, lo + 1, hi);
  }

  /** Mismatches lists exactly the differing indices of the range, each once, in increasing
   *  order. */
  lemma {:induction false} MismatchesExactly(a: seq<string>, b: seq<string>, width: nat, lo: nat, hi: nat)
    requires hi <= |a| && hi <= |b|
    ensures forall k :: k in Mismatches(a, b, width, lo, hi) <==> lo <= k < hi && Differ(a, b, width, k)
    ensures forall p, q :: 0 <= p < q < |Mismatches(a, b, width, lo, hi)| ==>
              Mismatches(a, b, width, lo, hi)[p] < Mismatches(a, b, width, lo, hi)[q]
    decreases hi - lo
  {
    if lo < hi {
      MismatchesExactly(a, b, width, lo + 1, hi);
    }
  }

  /** The first listed mismatch is the first mismatch, and there is none to list exactly when
   *  there is no first one. */
  lemma {:induction false} MismatchesStartWithFirst(a: seq<string>, b: seq<string>, width: nat, lo: nat, hi: nat)
    requires hi <= |a| && hi <= |b|
    ensures FirstMismatch(a, b, width, lo, hi).None? <==> Mismatches(a, b, width, lo, hi) == []
    ensures FirstMismatch(a, b, width, lo, hi).Some? ==>
              Mismatches(a, b, width, lo, hi)[0] == FirstMismatch(a, b, width, lo, hi).value
    decreases hi - lo
  {
    if lo < hi && !Differ(a, b, width, lo) {
      MismatchesStartWithFirst(a, b, width, lo + 1, hi);
    }
  }

  /** The comparison of [lo, hi) looks at no line from hi on: logs that agree below hi find the
   *  same mismatches there. */
  lemma {:induction false} MismatchesLocal(a: seq<string>, b: seq<string>, a': seq<string>, b': seq<string>,
                                           width: nat, lo: nat, hi: nat)
    requires hi <= |a| && hi <= |b| && hi <= |a'| && hi <= |b'|
    requires a[..hi] == a'[..hi] && b[..hi] == b'[..hi]
    ensures FirstMismatch(a, b, width, lo, hi) == FirstMismatch(a', b', width, lo, hi)
    ensures Mismatches(a, b, width, lo, hi) == Mismatches(a', b', width, lo, hi)
    decreases hi - lo
  {
    if lo < hi {
      assert a[lo] == a[..hi][lo] && a'[lo] == a'[..hi][lo];
      assert b[lo] == b[..hi][lo] && b'[lo] == b'[..hi][lo];
      MismatchesLocal(a, b, a', b', width, lo + 1, hi);
    }
  }
}
