/** Minted ids: `fmt.Sprintf("%s-%05d", prefix, n)`. */
module Ids {

  function Digit(d: nat): char
    requires d < 10
  {
    ('0' as int + d) as char
  }

  function Decimal(n: nat): (s: string)
    ensures |s| > 0
  {
    if n < 10 then [Digit(n)] else Decimal(n / 10) + [Digit(n % 10)]
  }

  function PadTo(width: nat, s: string): string
    decreases if width <= |s| then 0 else width - |s|
  {
    if width <= |s| then s else PadTo(width, "0" + s)
  }

  function MintId(prefix: string, n: nat): string
  {
    prefix + "-" + PadTo(5, Decimal(n))
  }

  /** The number a run of decimal digits denotes; the inverse of printing. */
  function ParseDecimal(s: string): int
  {
    if s == "" then 0
    else ParseDecimal(s[..|s| - 1]) * 10 + (s[|s| - 1] as int - '0' as int)
  }

  lemma {:induction false} ParseDecimalOfDecimal(n: nat)
    ensures ParseDecimal(Decimal(n)) == n
  {
    if n < 10 {
      assert [Digit(n)][..0] == "";
    } else {
      ParseDecimalOfDecimal(n / 10);
      var s := Decimal(n);
      assert s[..|s| - 1] == Decimal(n / 10);
    }
  }

  lemma {:induction false} ParseDecimalLeadingZero(s: string)
    ensures ParseDecimal("0" + s) == ParseDecimal(s)
  {
    var z := "0" + s;
    if s == "" {
      assert z[..0] == "";
    } else {
      ParseDecimalLeadingZero(s[..|s| - 1]);
      assert z[..|z| - 1] == "0" + s[..|s| - 1];
      assert z[|z| - 1] == s[|s| - 1];
    }
  }

  lemma {:induction false} ParseDecimalOfPadding(width: nat, s: string)
    ensures ParseDecimal(PadTo(width, s)) == ParseDecimal(s)
    decreases if width <= |s| then 0 else width - |s|
  {
    if width > |s| {
      ParseDecimalLeadingZero(s);
      ParseDecimalOfPadding(width, "0" + s);
    }
  }

  ghost predicate AllDigits(s: string)
  {
    forall i :: 0 <= i < |s| ==> '0' <= s[i] <= '9'
  }

  lemma {:induction false} DecimalDigits(n: nat)
    ensures AllDigits(Decimal(n)) && (n > 0 ==> Decimal(n)[0] != '0')
  {
    if n >= 10 {
      DecimalDigits(n / 10);
      assert Decimal(n)[0] == Decimal(n / 10)[0];
    }
  }

  lemma {:induction false} PaddedDigits(width: nat, s: string)
    requires AllDigits(s)
    ensures AllDigits(PadTo(width, s)) && |PadTo(width, s)| == if |s| < width then width else |s|
    ensures |s| >= width ==> PadTo(width, s) == s
    decreases if width <= |s| then 0 else width - |s|
  {
    if width > |s| {
      PaddedDigits(width, "0" + s);
    }
  }

  /** A minted id is the prefix, a dash and the number in five digits, or in as many as it
      needs if it needs more. */
  lemma MintIdShape(prefix: string, n: nat)
    ensures |MintId(prefix, n)| >= |prefix| + 6 && MintId(prefix, n)[..|prefix| + 1] == prefix + "-"
    ensures var digits := MintId(prefix, n)[|prefix| + 1..];
      AllDigits(digits) && ParseDecimal(digits) == n && (|digits| > 5 ==> digits[0] != '0')
  {
    var digits := PadTo(5, Decimal(n));
    assert MintId(prefix, n) == (prefix + "-") + digits;
    DecimalDigits(n);
    PaddedDigits(5, Decimal(n));
    ParseDecimalOfPadding(5, Decimal(n));
    ParseDecimalOfDecimal(n);
  }

  /** Zero-padded printing is injective, so a counter that only grows never mints an id twice. */
  lemma MintIdInjective(prefix: string, a: nat, b: nat)
    requires MintId(prefix, a) == MintId(prefix, b)
    ensures a == b
  {
    var pa, pb := PadTo(5, Decimal(a)), PadTo(5, Decimal(b));
    var head := prefix + "-";
    assert MintId(prefix, a) == head + pa && MintId(prefix, b) == head + pb;
    assert pa == MintId(prefix, a)[|head|..] && pb == MintId(prefix, b)[|head|..];
    ParseDecimalOfPadding(5, Decimal(a));
    ParseDecimalOfPadding(5, Decimal(b));
    ParseDecimalOfDecimal(a);
    ParseDecimalOfDecimal(b);
  }
}
