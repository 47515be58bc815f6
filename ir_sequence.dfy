/**
 * A stand-in for the host platform's numbering service (`ir.sequence`) as the
 * service-order creation hook uses it: `next_by_code` returns the next reference
 * of the sequence registered under a code, or nothing when no such sequence
 * exists. A reference is a fixed prefix followed by the sequence number,
 * zero-padded to a fixed width; each draw advances the number by one.
 */
module IrSequence {
  import opened Wrappers

  /** One sequence record: the text before the number, the width the number is
      padded to, and the number the next draw issues. */
  datatype SequenceState = SequenceState(prefix: string, padding: nat, next: nat)

  predicate IsDigit(c: char) { '0' <= c <= '9' }

  predicate AllDigits(s: string) { forall i :: 0 <= i < |s| ==> IsDigit(s[i]) }

  function DigitChar(d: nat): (c: char)
    requires d < 10
    ensures IsDigit(c) && c as int - '0' as int == d
  {
    ('0' as int + d) as char
  }

  function DigitValue(c: char): nat
    requires IsDigit(c)
  {
    c as int - '0' as int
  }

  /** Decimal rendering of `n`, without leading zeros. */
  function Decimal(n: nat): (s: string)
    ensures |s| > 0 && AllDigits(s)
  {
    if n < 10 then [DigitChar(n)] else Decimal(n / 10) + [DigitChar(n % 10)]
  }

  /** The number a string of decimal digits denotes (the inverse of `Decimal`). */
  function NumberOf(s: string): nat
    requires AllDigits(s)
  {
    if s == [] then 0 else NumberOf(s[..|s| - 1]) * 10 + DigitValue(s[|s| - 1])
  }

  function Zeros(k: nat): (s: string)
    ensures |s| == k && AllDigits(s)
  {
    if k == 0 then [] else Zeros(k - 1) + ['0']
  }

  /** `s` with zeros put in front of it until it is `width` long. */
  function ZeroPad(s: string, width: nat): (r: string)
    ensures |r| >= |s| && |r| >= width && r[|r| - |s|..] == s
    ensures AllDigits(s) ==> AllDigits(r)
  {
    (if |s| < width then Zeros(width - |s|) else []) + s
  }

  /** The reference a draw from `sq` issues. */
  function Render(sq: SequenceState): (r: string)
    ensures |r| >= |sq.prefix| + sq.padding && r[..|sq.prefix|] == sq.prefix
    ensures AllDigits(r[|sq.prefix|..])
  {
    sq.prefix + ZeroPad(Decimal(sq.next), sq.padding)
  }

  /** `next_by_code`: the reference drawn and the sequence afterwards; nothing
      is drawn when no sequence is registered. */
  function NextByCode(sq: Option<SequenceState>): (r: (Option<string>, Option<SequenceState>))
    ensures r.0.Some? <==> sq.Some?
    ensures r.1.Some? <==> sq.Some?
    ensures sq.Some? ==> r.0.value == Render(sq.value) && r.1.value == sq.value.(next := sq.value.next + 1)
  {
    match sq
    case None => (None, None)
    case Some(s) => (Some(Render(s)), Some(s.(next := s.next + 1)))
  }

  lemma {:induction false} NumberOfDecimal(n: nat)
    ensures NumberOf(Decimal(n)) == n
  {
    if n >= 10 {
      var s := Decimal(n);
      assert s[..|s| - 1] == Decimal(n / 10);
      NumberOfDecimal(n / 10);
    }
  }

  lemma {:induction false} NumberOfZeros(k: nat)
    ensures NumberOf(Zeros(k)) == 0
  {
    if k > 0 {
      assert Zeros(k)[..k - 1] == Zeros(k - 1);
      NumberOfZeros(k - 1);
    }
  }

  /** Leading zeros do not change the number a string of digits denotes. */
  lemma {:induction false} NumberOfIgnoresLeadingZeros(k: nat, s: string)
    requires AllDigits(s)
    ensures NumberOf(Zeros(k) + s) == NumberOf(s)
    decreases |s|
  {
    if s == [] {
      assert Zeros(k) + s == Zeros(k);
      NumberOfZeros(k);
    } else {
      var t := Zeros(k) + s;
      assert t[..|t| - 1] == Zeros(k) + s[..|s| - 1];
      NumberOfIgnoresLeadingZeros(k, s[..|s| - 1]);
    }
  }

  /** Padding a string of digits keeps the number it denotes. */
  lemma NumberOfPadded(d: string, width: nat)
    requires AllDigits(d)
    ensures NumberOf(ZeroPad(d, width)) == NumberOf(d)
  {
    var padded := ZeroPad(d, width);
    if |d| < width {
      var zeros := Zeros(width - |d|);
      assert padded == zeros + d;
      NumberOfIgnoresLeadingZeros(width - |d|, d);
      assert NumberOf(padded) == NumberOf(zeros + d);
    } else {
      assert padded == d;
    }
  }

  /** Round trip: the number can be read back from a padded rendering. */
  lemma NumberOfZeroPad(n: nat, width: nat)
    ensures AllDigits(ZeroPad(Decimal(n), width))
    ensures NumberOf(ZeroPad(Decimal(n), width)) == n
  {
    NumberOfDecimal(n);
    NumberOfPadded(Decimal(n), width);
  }

  /** Two draws from one sequence record give the same reference only when they
      issue the same number. */
  lemma RenderInjective(a: SequenceState, b: SequenceState)
    requires a.prefix == b.prefix && a.padding == b.padding
    requires Render(a) == Render(b)
    ensures a.next == b.next
  {
    var p := |a.prefix|;
    assert Render(a)[p..] == ZeroPad(Decimal(a.next), a.padding);
    assert Render(b)[p..] == ZeroPad(Decimal(b.next), b.padding);
    NumberOfZeroPad(a.next, a.padding);
    NumberOfZeroPad(b.next, b.padding);
  }

  /** Every reference ends in a digit. */
  lemma RenderEndsInDigit(sq: SequenceState)
    ensures |Render(sq)| > 0 && IsDigit(Render(sq)[|Render(sq)| - 1])
  {
    var d := Decimal(sq.next);
    var r := Render(sq);
    var padded := ZeroPad(d, sq.padding);
    assert padded[|padded| - 1] == d[|d| - 1];
    assert r[|r| - 1] == padded[|padded| - 1];
  }

  /** Successive draws issue distinct references, and the number keeps rising. */
  lemma SuccessiveDrawsDiffer(sq: SequenceState)
    ensures NextByCode(Some(sq)).0.Some? && NextByCode(Some(sq)).1.Some?
    ensures NextByCode(Some(sq)).1.value.next == sq.next + 1
    ensures NextByCode(NextByCode(Some(sq)).1).0 != NextByCode(Some(sq)).0
  {
    var later := sq.(next := sq.next + 1);
    if Render(later) == Render(sq) {
      RenderInjective(later, sq);
    }
  }
}
