/**
 * The CPF (Brazilian taxpayer number) validator of src/utils/cpf.ts:
 * `normalizeCPF` keeps the ASCII digits of a string, `isValidCPF` runs the
 * Receita Federal mod-11 check-digit scheme over the normalized string.
 */
module Cpf {

  /** The characters JavaScript's `\d` matches (no `u` flag: ASCII only). */
  predicate IsDigit(ch: char) {
    '0' <= ch <= '9'
  }

  predicate AllDigits(s: string) {
    forall i :: 0 <= i < |s| ==> IsDigit(s[i])
  }

  /** The numeric value `+ch` of a digit character. */
  function DigitValue(ch: char): (n: int)
    requires IsDigit(ch)
    ensures 0 <= n <= 9
  {
    ch as int - '0' as int
  }

  /** The digit character whose value is `n`. */
  function DigitChar(n: int): (ch: char)
    requires 0 <= n <= 9
    ensures IsDigit(ch) && DigitValue(ch) == n
  {
    ('0' as int + n) as char
  }

  /**
   * `v.replace(/\D/g, "")`: drop every character that is not a digit. The same
   * expression strips the CPF and phone inputs of the registration form.
   */
  function Digits(v: string): (r: string)
    ensures AllDigits(r)
    ensures |r| <= |v|
  {
    if v == [] then []
    else (if IsDigit(v[0]) then [v[0]] else []) + Digits(v[1..])
  }

  /** Stripping distributes over concatenation: it never reorders or merges. */
  lemma {:induction false} DigitsAppend(a: string, b: string)
    ensures Digits(a + b) == Digits(a) + Digits(b)
  {
    if a == [] {
      assert a + b == b;
    } else {
      assert (a + b)[1..] == a[1..] + b;
      DigitsAppend(a[1..], b);
    }
  }

  /** A single character survives exactly when it is a digit. */
  lemma DigitsOfChar(ch: char)
    ensures Digits([ch]) == if IsDigit(ch) then [ch] else []
  {
    assert [ch][1..] == [];
  }

  /** A string of digits is left as it is. */
  lemma {:induction false} DigitsUnchanged(v: string)
    requires AllDigits(v)
    ensures Digits(v) == v
  {
    if v != [] {
      DigitsUnchanged(v[1..]);
    }
  }

  lemma DigitsIdempotent(v: string)
    ensures Digits(Digits(v)) == Digits(v)
  {
    DigitsUnchanged(Digits(v));
  }

  /** Every digit of `v` is kept: the number of occurrences of each digit is unchanged. */
  lemma {:induction false} DigitsKeepCounts(v: string, d: char)
    requires IsDigit(d)
    ensures multiset(Digits(v))[d] == multiset(v)[d]
  {
    if v != [] {
      DigitsKeepCounts(v[1..], d);
      assert v == [v[0]] + v[1..];
    }
  }

  /**
   * `normalizeCPF`: the digits of `v`. (The `|| ""` guard of the source only
   * maps null/undefined to "".)
   */
  function NormalizeCPF(v: string): (c: string)
    ensures AllDigits(c) && |c| <= |v|
    ensures Digits(c) == c
  {
    DigitsIdempotent(v);
    Digits(v)
  }

  /** `x` occupies every position of `c` exactly when it is counted `|c|` times. */
  lemma {:induction false} CountAll(c: string, x: char)
    ensures multiset(c)[x] == |c| <==> forall i :: 0 <= i < |c| ==> c[i] == x
  {
    if c != [] {
      assert c == [c[0]] + c[1..];
      CountAll(c[1..], x);
      assert multiset(c)[x] == (if c[0] == x then 1 else 0) + multiset(c[1..])[x];
      assert multiset(c[1..])[x] <= |c[1..]|;
      if forall i :: 0 <= i < |c| ==> c[i] == x {
        assert forall i :: 0 <= i < |c[1..]| ==> c[1..][i] == c[i + 1];
      }
      if forall i :: 0 <= i < |c[1..]| ==> c[1..][i] == x {
        if c[0] == x {
          forall i | 0 <= i < |c|
            ensures c[i] == x
          {
            if i > 0 { assert c[i] == c[1..][i - 1]; }
          }
        }
      }
    }
  }

  /**
   * The regular expression `/(\d)\1{10}/` on a string of eleven digits: one
   * digit repeated throughout, that is, the first digit counted eleven times.
   */
  function AllSame(c: string): (b: bool)
    ensures |c| > 0 ==> (b <==> multiset(c)[c[0]] == |c|)
  {
    CountAll(c, if |c| > 0 then c[0] else '0');
    forall i :: 0 <= i < |c| ==> c[i] == c[0]
  }

  /** Sum of `c[i] * (top - i)` for `0 <= i < n`, accumulated in the loop's order. */
  function WeightedSum(c: string, n: nat, top: int): int
    requires n <= |c| && AllDigits(c)
  {
    if n == 0 then 0
    else WeightedSum(c, n - 1, top) + DigitValue(c[n - 1]) * (top - (n - 1))
  }

  /** The `if (d === 10) d = 0` coercion after a remainder modulo 11. */
  function Coerce(x: int): (d: int)
    requires 0 <= x < 11
    ensures 0 <= d <= 9
    ensures d == x % 10
  {
    if x == 10 then 0 else x
  }

  /** d1 = (10 * sum_{i<9} c[i] * (10 - i)) mod 11, with 10 read as 0. */
  function FirstCheckDigit(c: string): (d1: int)
    requires |c| >= 9 && AllDigits(c)
    ensures 0 <= d1 <= 9
  {
    Coerce((WeightedSum(c, 9, 10) * 10) % 11)
  }

  /** d2 = (10 * (sum_{i<9} c[i] * (11 - i) + 2 * d1)) mod 11, with 10 read as 0. */
  function SecondCheckDigit(c: string): (d2: int)
    requires |c| >= 9 && AllDigits(c)
    ensures 0 <= d2 <= 9
  {
    Coerce(((WeightedSum(c, 9, 11) + 2 * FirstCheckDigit(c)) * 10) % 11)
  }

  /** Positions 9 and 10 carry the two check digits computed from positions 0..8. */
  predicate ChecksumHolds(c: string)
    requires |c| == 11 && AllDigits(c)
  {
    DigitValue(c[9]) == FirstCheckDigit(c) && DigitValue(c[10]) == SecondCheckDigit(c)
  }

  /**
   * The verdict `isValidCPF` is specified to return. An accepted input holds at
   * least eleven characters, and at least two different digits.
   */
  function ValidCPF(v: string): (b: bool)
    ensures b ==> 11 <= |v|
    ensures b ==> multiset(NormalizeCPF(v))[NormalizeCPF(v)[0]] < 11
  {
    var c := NormalizeCPF(v);
    |c| == 11 && !AllSame(c) && ChecksumHolds(c)
  }

  /** `isValidCPF`: the check digits are computed in one loop over positions 0..8. */
  method IsValidCPF(v: string) returns (ok: bool)
    ensures ok == ValidCPF(v)
    ensures ok ==> |NormalizeCPF(v)| == 11 && !AllSame(NormalizeCPF(v))
  {
    var c := NormalizeCPF(v);
    if |c| != 11 || AllSame(c) {
      return false;
    }
    var d1, d2 := 0, 0;
    for i := 0 to 9
      invariant d1 == WeightedSum(c, i, 10)
      invariant d2 == WeightedSum(c, i, 11)
    {
      var n := DigitValue(c[i]);
      d1 := d1 + n * (10 - i);
      d2 := d2 + n * (11 - i);
    }
    d1 := (d1 * 10) % 11;
    if d1 == 10 { d1 := 0; }
    d2 := ((d2 + d1 * 2) * 10) % 11;
    if d2 == 10 { d2 := 0; }
    ok := d1 == DigitValue(c[9]) && d2 == DigitValue(c[10]);
  }

  // ---------------------------------------------------------------------------
  // Properties of the verdict

  /** Punctuation never matters: masked and unmasked forms get the same verdict. */
  lemma ValidIgnoresPunctuation(v: string)
    ensures ValidCPF(v) == ValidCPF(Digits(v))
  {
    DigitsIdempotent(v);
  }

  /** Anything that does not strip to eleven digits, the empty string included, is rejected. */
  lemma WrongLengthRejected(v: string)
    requires |Digits(v)| != 11
    ensures !ValidCPF(v)
    ensures !ValidCPF("")
  {
  }

  /** Eleven copies of one digit. */
  function Repeated(k: int): (c: string)
    requires 0 <= k <= 9
    ensures |c| == 11 && AllDigits(c) && AllSame(c)
    ensures forall i :: 0 <= i < 11 ==> DigitValue(c[i]) == k
  {
    seq(11, _ => DigitChar(k))
  }

  /** Sum of the weights `top - i` for `0 <= i < n`. */
  function WeightTotal(n: nat, top: int): int {
    if n == 0 then 0 else WeightTotal(n - 1, top) + (top - (n - 1))
  }

  lemma {:induction false} WeightedSumRepeated(k: int, n: nat, top: int)
    requires 0 <= k <= 9 && n <= 11
    ensures WeightedSum(Repeated(k), n, top) == k * WeightTotal(n, top)
  {
    if n > 0 {
      WeightedSumRepeated(k, n - 1, top);
      assert k * WeightTotal(n, top) == k * WeightTotal(n - 1, top) + k * (top - (n - 1));
    }
  }

  /**
   * Eleven equal digits satisfy the checksum (for digit k both check digits are k),
   * which is why they are rejected separately.
   */
  lemma RepeatedPassesChecksum(k: int)
    requires 0 <= k <= 9
    ensures ChecksumHolds(Repeated(k))
    ensures !ValidCPF(Repeated(k))
  {
    var c := Repeated(k);
    WeightedSumRepeated(k, 9, 10);
    WeightedSumRepeated(k, 9, 11);
    assert WeightTotal(9, 10) == 54 && WeightTotal(9, 11) == 63;
    assert (540 * k) % 11 == k by {
      assert 540 * k == 11 * (49 * k) + k;
    }
    assert FirstCheckDigit(c) == k;
    assert (650 * k) % 11 == k by {
      assert 650 * k == 11 * (59 * k) + k;
    }
    assert SecondCheckDigit(c) == k;
    DigitsUnchanged(c);
  }

  /** The weighted sum looks only at the first `n` characters. */
  lemma {:induction false} WeightedSumPrefix(c: string, d: string, n: nat, top: int)
    requires n <= |c| && n <= |d| && AllDigits(c) && AllDigits(d)
    requires c[..n] == d[..n]
    ensures WeightedSum(c, n, top) == WeightedSum(d, n, top)
  {
    if n > 0 {
      assert c[n - 1] == c[..n][n - 1] && d[n - 1] == d[..n][n - 1];
      assert c[..n - 1] == c[..n][..n - 1] && d[..n - 1] == d[..n][..n - 1];
      WeightedSumPrefix(c, d, n - 1, top);
    }
  }

  /** Changing only the 10th or only the 11th digit of an accepted number makes it rejected. */
  lemma CheckDigitChangeRejected(v: string, pos: int, ch: char)
    requires ValidCPF(v)
    requires pos == 9 || pos == 10
    requires IsDigit(ch) && ch != Digits(v)[pos]
    ensures !ValidCPF(Digits(v)[pos := ch])
  {
    var c := Digits(v);
    var c' := c[pos := ch];
    assert AllDigits(c');
    DigitsUnchanged(c');
    assert c[..9] == c'[..9];
    WeightedSumPrefix(c, c', 9, 10);
    WeightedSumPrefix(c, c', 9, 11);
    assert FirstCheckDigit(c) == FirstCheckDigit(c');
    assert SecondCheckDigit(c) == SecondCheckDigit(c');
    if pos == 9 {
      assert DigitValue(c'[9]) != DigitValue(c[9]);
    } else {
      assert DigitValue(c'[10]) != DigitValue(c[10]);
    }
  }

  /** The official construction: nine digits followed by their two computed check digits. */
  function Complete(p: string): (c: string)
    requires |p| == 9 && AllDigits(p)
    ensures |c| == 11 && AllDigits(c) && c[..9] == p
  {
    var d1 := FirstCheckDigit(p);
    var d2 := SecondCheckDigit(p);
    p + [DigitChar(d1), DigitChar(d2)]
  }

  /**
   * Every number produced by the construction is accepted, except the ten
   * numbers whose nine leading digits are all equal.
   */
  lemma CompleteAccepted(p: string)
    requires |p| == 9 && AllDigits(p)
    ensures ValidCPF(Complete(p)) <==> !AllSame(p)
  {
    var c := Complete(p);
    DigitsUnchanged(c);
    assert c[..9] == p[..9];
    WeightedSumPrefix(c, p, 9, 10);
    WeightedSumPrefix(c, p, 9, 11);
    assert ChecksumHolds(c);
    if AllSame(p) {
      var k := DigitValue(p[0]);
      var r := Repeated(k);
      assert r[..9] == p[..9];
      WeightedSumPrefix(r, p, 9, 10);
      WeightedSumPrefix(r, p, 9, 11);
      RepeatedPassesChecksum(k);
      assert c[9] == DigitChar(k) == p[0];
      assert c[10] == DigitChar(k) == p[0];
      assert AllSame(c);
    } else {
      var i :| 0 <= i < 9 && p[i] != p[0];
      assert c[i] != c[0];
    }
  }

  /** An eleven-digit string that is not a repetition and carries its check digits is accepted. */
  lemma AcceptedDigits(c: string)
    requires |c| == 11 && AllDigits(c)
    requires exists i :: 0 <= i < 11 && c[i] != c[0]
    requires ChecksumHolds(c)
    ensures ValidCPF(c)
  {
    DigitsUnchanged(c);
  }

  /** The usual test number is accepted. */
  lemma KnownValidNumber()
    ensures ValidCPF("52998224725")
  {
    var c := "52998224725";
    assert c[1] != c[0];
    AcceptedDigits(c);
  }

  /**
   * A single-digit change at position 0 can go undetected: raising the first
   * digit by one moves the first weighted sum from 1 to 0 (mod 11), which the
   * 10-to-0 coercion maps to the same check digit, and its weight 11 vanishes
   * in the second sum.
   */
  lemma FirstDigitChangeUndetected()
    ensures ValidCPF("00000000604") && ValidCPF("10000000604")
  {
    AcceptedLowNumber();
    AcceptedRaisedNumber();
  }

  lemma AcceptedLowNumber()
    ensures ValidCPF("00000000604")
  {
    var c := "00000000604";
    assert c[8] != c[0];
    AcceptedDigits(c);
  }

  lemma AcceptedRaisedNumber()
    ensures ValidCPF("10000000604")
  {
    var c := "10000000604";
    assert c[1] != c[0];
    AcceptedDigits(c);
  }
}
