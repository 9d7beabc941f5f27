// What the trace-comparison scripts under debug/ are made of, in Python's own terms: the lines
// readlines() returns are strings that keep their "\n", a run of a script is the sequence of
// writes it makes to standard output (print writes its text and a newline, input writes its
// prompt), and a run ends normally, by an uncaught exception, or by exit().

module PyScript {

  datatype Option<T> = None | Some(value: T)

  /** The exceptions the scripts can raise on their inputs: an index past the end of a list of
   *  lines, and input() finding standard input exhausted. */
  datatype PyError = IndexError | EOFError

  /** How a run ends, with everything it wrote before. */
  datatype Outcome =
    | Finished(out: seq<string>)
    | Raised(error: PyError, out: seq<string>)
    | Exited(code: int, out: seq<string>)

  /** The run that first writes w and then goes on as o. */
  function Prepend(w: seq<string>, o: Outcome): (r: Outcome)
    ensures r.out == w + o.out
    ensures r.Finished? == o.Finished? && r.Raised? == o.Raised? && r.Exited? == o.Exited?
    ensures r.Raised? ==> r.error == o.error
    ensures r.Exited? ==> r.code == o.code
  {
    match o
    case Finished(out) => Finished(w + out)
    case Raised(e, out) => Raised(e, w + out)
    case Exited(c, out) => Exited(c, w + out)
  }

  /** Writing u and then v is writing u + v. */
  lemma PrependTwice(u: seq<string>, v: seq<string>, o: Outcome)
    ensures Prepend(u, Prepend(v, o)) == Prepend(u + v, o)
  {
    assert u + (v + o.out) == (u + v) + o.out;
  }

  /** Output written in three parts. */
  lemma Appended(u: seq<string>, v: seq<string>, x: seq<string>)
    ensures (u + v) + x == u + (v + x)
  {
  }

  /** What print(s) writes. */
  function Printed(s: string): string
  {
    s + "\n"
  }

  function Min(a: int, b: int): int
  {
    if a < b then a else b
  }

  /** s[:n] for n >= 0: the first n characters, or all of s when it is shorter. */
  function Prefix(s: string, n: nat): (p: string)
    ensures |p| == Min(|s|, n) && p == s[..|p|]
  {
    if |s| <= n then s else s[..n]
  }

  /** s[:-1]: s without its last character; the empty string stays empty. */
  function DropLast(s: string): (r: string)
    ensures |s| > 0 ==> r + [s[|s| - 1]] == s
    ensures |s| == 0 ==> r == ""
  {
    if |s| == 0 then "" else s[..|s| - 1]
  }

  /** s[k] with Python's negative indices counting from the end. */
  function At(s: seq<string>, k: int): string
    requires -|s| <= k < |s|
  {
    if k < 0 then s[|s| + k] else s[k]
  }

  /** The decimal digit of d. */
  function DigitChar(d: nat): char
    requires d < 10
  {
    "0123456789"[d]
  }

  /** The value of a decimal digit. */
  function DigitValue(c: char): nat
  {
    if '0' <= c <= '9' then (c as int - '0' as int) as nat else 0
  }

  /** str(n) for n >= 0: decimal, no leading zeros. */
  function Decimal(n: nat): (s: string)
    ensures |s| > 0 && (|s| > 1 ==> s[0] != '0')
    ensures forall k :: 0 <= k < |s| ==> '0' <= s[k] <= '9'
  {
    if n < 10 then [DigitChar(n)] else Decimal(n / 10) + [DigitChar(n % 10)]
  }

  /** The number a string of decimal digits denotes. */
  function DecimalValue(s: string): nat
  {
    if |s| == 0 then 0 else DecimalValue(s[..|s| - 1]) * 10 + DigitValue(s[|s| - 1])
  }

  lemma DigitRoundTrip(d: nat)
    requires d < 10
    ensures DigitValue(DigitChar(d)) == d
  {
  }

  /** str(n) reads back as n: distinct line numbers are printed differently. */
  lemma {:induction false} DecimalRoundTrip(n: nat)
    ensures DecimalValue(Decimal(n)) == n
  {
    if n < 10 {
      DigitRoundTrip(n);
      assert Decimal(n)[..0] == "";
    } else {
      var s := Decimal(n);
      assert s[..|s| - 1] == Decimal(n / 10);
      DecimalRoundTrip(n / 10);
      DigitRoundTrip(n % 10);
    }
  }

  /** Two printed numbers are equal only when the numbers are. */
  lemma DecimalInjective(a: nat, b: nat)
    requires Decimal(a) == Decimal(b)
    ensures a == b
  {
    DecimalRoundTrip(a);
    DecimalRoundTrip(b);
  }
}
