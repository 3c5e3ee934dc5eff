/**
 * The display masks of the registration form (src/app/page.tsx):
 * `formatCPF` and `formatPhone` strip every non-digit and then let a regular
 * expression regroup the digits. The expression is not global and needs all of
 * its digits: below that count the bare digit string comes back unmasked, and
 * digits beyond the mask are appended after it.
 */
module Format {
  import opened Cpf

  /** Masks written with '#' for a digit; every other character stands for itself. */
  const CpfMask := "###.###.###-##"
  const PhoneMask10 := "(##) ####-####"
  const PhoneMask11 := "(##) #####-####"

  predicate FitsMask(s: string, mask: string) {
    |s| == |mask| &&
    forall i :: 0 <= i < |s| ==> if mask[i] == '#' then IsDigit(s[i]) else s[i] == mask[i]
  }

  /** `(\d{3})(\d{3})(\d{3})(\d{2})` replaced by `$1.$2.$3-$4` on a string of digits. */
  function MaskCPF(n: string): (r: string)
    requires AllDigits(n)
    ensures |n| == 11 ==> FitsMask(r, CpfMask)
    ensures |n| < 11 ==> r == n
  {
    if |n| >= 11 then n[..3] + "." + n[3..6] + "." + n[6..9] + "-" + n[9..11] + n[11..]
    else n
  }

  /** `formatCPF`: the digits of `value`, grouped as ddd.ddd.ddd-dd once eleven exist. */
  function FormatCPF(value: string): (r: string)
    ensures |Digits(value)| == 11 ==> FitsMask(r, CpfMask) && |r| == 14
    ensures |Digits(value)| < 11 ==> r == Digits(value)
  {
    MaskCPF(Digits(value))
  }

  /** `(\d{2})(\d{4})(\d{4})` and `(\d{2})(\d{5})(\d{4})` replaced by `($1) $2-$3`. */
  function MaskPhone(n: string): (r: string)
    requires AllDigits(n)
    ensures |n| == 10 ==> FitsMask(r, PhoneMask10)
    ensures |n| == 11 ==> FitsMask(r, PhoneMask11)
    ensures |n| < 10 ==> r == n
  {
    if |n| <= 10 then
      if |n| == 10 then "(" + n[..2] + ") " + n[2..6] + "-" + n[6..10] else n
    else "(" + n[..2] + ") " + n[2..7] + "-" + n[7..11] + n[11..]
  }

  /** `formatPhone`: a landline mask for ten digits, a mobile mask from eleven on. */
  function FormatPhone(value: string): (r: string)
    ensures |Digits(value)| == 10 ==> FitsMask(r, PhoneMask10) && |r| == 14
    ensures |Digits(value)| == 11 ==> FitsMask(r, PhoneMask11) && |r| == 15
    ensures |Digits(value)| < 10 ==> r == Digits(value)
  {
    MaskPhone(Digits(value))
  }

  /** Inserting a run of non-digits between two strings does not change their digits. */
  lemma DigitsAround(a: string, sep: string, b: string)
    requires Digits(sep) == []
    ensures Digits(a + sep + b) == Digits(a) + Digits(b)
  {
    DigitsAppend(a + sep, b);
    DigitsAppend(a, sep);
  }

  lemma SeparatorsHaveNoDigits()
    ensures Digits(".") == [] && Digits("-") == []
    ensures Digits("(") == [] && Digits(") ") == []
  {
  }

  /** Stripping the CPF mask gives back exactly the digits it was built from. */
  lemma {:induction false} MaskCPFKeepsDigits(n: string)
    requires AllDigits(n)
    ensures Digits(MaskCPF(n)) == n
  {
    DigitsUnchanged(n);
    if |n| >= 11 {
      var a, b, c, d, e := n[..3], n[3..6], n[6..9], n[9..11], n[11..];
      assert n == a + b + c + d + e;
      SeparatorsHaveNoDigits();
      DigitsUnchanged(a);
      DigitsUnchanged(b);
      DigitsUnchanged(c);
      DigitsUnchanged(d);
      DigitsUnchanged(e);
      DigitsAround(a, ".", b);
      DigitsAround(a + "." + b, ".", c);
      DigitsAround(a + "." + b + "." + c, "-", d);
      DigitsAppend(a + "." + b + "." + c + "-" + d, e);
    }
  }

  /** Stripping the phone mask gives back exactly the digits it was built from. */
  lemma {:induction false} MaskPhoneKeepsDigits(n: string)
    requires AllDigits(n)
    ensures Digits(MaskPhone(n)) == n
  {
    DigitsUnchanged(n);
    SeparatorsHaveNoDigits();
    if |n| == 10 {
      var a, b, c := n[..2], n[2..6], n[6..10];
      assert n == a + b + c;
      DigitsUnchanged(a);
      DigitsUnchanged(b);
      DigitsUnchanged(c);
      DigitsAround("(" + a, ") ", b);
      DigitsAround("(" + a + ") " + b, "-", c);
      DigitsAppend("(", a);
    } else if |n| > 10 {
      var a, b, c, e := n[..2], n[2..7], n[7..11], n[11..];
      assert n == a + b + c + e;
      DigitsUnchanged(a);
      DigitsUnchanged(b);
      DigitsUnchanged(c);
      DigitsUnchanged(e);
      DigitsAround("(" + a, ") ", b);
      DigitsAround("(" + a + ") " + b, "-", c);
      DigitsAppend("(", a);
      DigitsAppend("(" + a + ") " + b + "-" + c, e);
    }
  }

  /** `formatCPF` keeps every digit of its input, in order, and adds none. */
  lemma FormatCPFKeepsDigits(value: string)
    ensures Digits(FormatCPF(value)) == Digits(value)
  {
    MaskCPFKeepsDigits(Digits(value));
  }

  /** Formatting an already formatted value changes nothing. */
  lemma FormatCPFIdempotent(value: string)
    ensures FormatCPF(FormatCPF(value)) == FormatCPF(value)
  {
    FormatCPFKeepsDigits(value);
  }

  /** `formatPhone` keeps every digit of its input, in order, and adds none. */
  lemma FormatPhoneKeepsDigits(value: string)
    ensures Digits(FormatPhone(value)) == Digits(value)
  {
    MaskPhoneKeepsDigits(Digits(value));
  }

  lemma FormatPhoneIdempotent(value: string)
    ensures FormatPhone(FormatPhone(value)) == FormatPhone(value)
  {
    FormatPhoneKeepsDigits(value);
  }

  lemma KnownNumberLayout()
    ensures MaskCPF("52998224725") == "529.982.247-25"
  {
  }

  /** The usual test number, typed as bare digits, is masked as 529.982.247-25. */
  lemma KnownNumberFormatted()
    ensures FormatCPF("52998224725") == "529.982.247-25"
  {
    var d := "52998224725";
    assert AllDigits(d) by {}
    DigitsUnchanged(d);
    KnownNumberLayout();
  }

  /** Masking never changes the verdict on a CPF. */
  lemma FormatCPFKeepsVerdict(value: string)
    ensures ValidCPF(FormatCPF(value)) == ValidCPF(value)
  {
    FormatCPFKeepsDigits(value);
    ValidIgnoresPunctuation(FormatCPF(value));
    ValidIgnoresPunctuation(value);
  }

  /** The masked test number is accepted, as its bare digits are. */
  lemma KnownNumberMaskedAccepted()
    ensures ValidCPF("529.982.247-25")
  {
    KnownValidNumber();
    KnownNumberFormatted();
    FormatCPFKeepsVerdict("52998224725");
  }
}
