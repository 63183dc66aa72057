/** Integer arithmetic and integer text: powers for the exponential
    backoffs, and Python's `str(n)` and `int(s)` for whole numbers. */
module Numbers {
  import opened Wrappers
  import opened Text
  /** `b ** e` for a natural exponent. */
  function Pow(b: int, e: nat): int
    decreases e
  {
    if e == 0 then 1 else b * Pow(b, e - 1)
  }

  /** A positive base has positive powers. */
  lemma {:induction false} PowPositive(b: int, e: nat)
    requires b > 0
    ensures Pow(b, e) > 0
    decreases e
  {
    if e > 0 {
      PowPositive(b, e - 1);
    }
  }

  /** Powers of a base of at least one never decrease. */
  lemma {:induction false} PowMonotone(b: int, e1: nat, e2: nat)
    requires b >= 1 && e1 <= e2
    ensures Pow(b, e1) <= Pow(b, e2)
    decreases e2
  {
    if e1 < e2 {
      PowMonotone(b, e1, e2 - 1);
      PowPositive(b, e2 - 1);
      assert Pow(b, e2) == b * Pow(b, e2 - 1);
      assert b * Pow(b, e2 - 1) >= Pow(b, e2 - 1) by {
        assert (b - 1) * Pow(b, e2 - 1) >= 0;
      }
    }
  }

  /** `str(n)` for an integer. */
  function IntToString(n: int): string {
    if n < 0 then "-" + NatToString(-n) else NatToString(n)
  }

  predicate IsDigit(c: char) {
    '0' <= c <= '9'
  }

  predicate AllDigits(s: string) {
    forall k | 0 <= k < |s| :: IsDigit(s[k])
  }

  /** The value of a string of decimal digits. */
  function DigitsValue(s: string): nat
    requires AllDigits(s)
    decreases |s|
  {
    if s == [] then 0 else DigitsValue(s[..|s| - 1]) * 10 + (s[|s| - 1] as int - '0' as int)
  }

  /** ASCII digits with single underscores between them, as `int` accepts
      them. */
  predicate Grouped(s: string) {
    && s != [] && IsDigit(s[0]) && IsDigit(s[|s| - 1])
    && (forall k | 0 <= k < |s| :: IsDigit(s[k]) || s[k] == '_')
    && (forall k | 0 < k < |s| :: s[k] == '_' ==> s[k - 1] != '_')
  }

  /** The digits of a grouped string, without its underscores. */
  function Ungrouped(s: string): (r: string)
    ensures (forall k | 0 <= k < |s| :: IsDigit(s[k]) || s[k] == '_') ==> AllDigits(r)
    ensures AllDigits(s) ==> r == s
    decreases |s|
  {
    if s == [] then []
    else
      var rest := Ungrouped(s[1..]);
      assert forall k | 0 <= k < |s| - 1 :: s[1..][k] == s[k + 1];
      (if s[0] == '_' then [] else [s[0]]) + rest
  }

  /** `int(s)` for base ten: surrounding whitespace, an optional sign and
      ASCII digits, single underscores allowed between digits; `None` where
      Python raises `ValueError`. A run of plain digits reads as its value. */
  function ParseInt(s: string): (r: Option<int>)
    ensures r.Some? <==> IntLiteral(Strip(s))
    ensures Strip(s) != [] && AllDigits(Strip(s)) ==> r == Some(DigitsValue(Strip(s)))
  {
    ParseTrimmed(Strip(s))
  }

  /** The text `int` accepts once the surrounding whitespace is gone. */
  predicate IntLiteral(t: string) {
    Grouped(t) || (t != [] && (t[0] == '-' || t[0] == '+') && Grouped(t[1..]))
  }

  /** `int(s)` once the surrounding whitespace is gone. */
  function ParseTrimmed(t: string): (r: Option<int>)
    ensures r.Some? <==> IntLiteral(t)
    ensures t != [] && AllDigits(t) ==> r == Some(DigitsValue(t))
  {
    DigitsGrouped(t);
    if t != [] && (t[0] == '-' || t[0] == '+') then
      var d := t[1..];
      if Grouped(d) then
        var v: int := DigitsValue(Ungrouped(d));
        Some(if t[0] == '-' then -v else v)
      else None
    else if Grouped(t) then Some(DigitsValue(Ungrouped(t)))
    else None
  }

  /** A non-empty run of digits is grouped and has no underscore to drop. */
  lemma DigitsGrouped(s: string)
    ensures s != [] && AllDigits(s) ==> Grouped(s) && Ungrouped(s) == s
  {
  }

  /** Underscores between digits do not change the value: a grouped
      string reads as its digits alone. */
  lemma UnderscoresIgnored(t: string)
    requires Grouped(t)
    ensures ParseTrimmed(t) == ParseTrimmed(Ungrouped(t))
  {
    var d := Ungrouped(t);
    assert IsDigit(t[0]);
    assert d != [] && d[0] == t[0];
    DigitsGrouped(d);
  }

  /** `int("1_000") == 1000`. */
  lemma UnderscoreExamples()
    ensures ParseTrimmed("1_000") == Some(1000)
  {
    var t := "1_000";
    assert Grouped(t);
    assert Ungrouped(t) == "1000" by {
      assert t[1..] == "_000" && t[2..] == "000";
      DigitsGrouped("000");
    }
    assert DigitsValue("1000") == 1000 by {
      assert "1000"[..3] == "100" && "100"[..2] == "10" && "10"[..1] == "1";
    }
  }

  /** A leading, trailing or doubled underscore is refused. */
  lemma UnderscoresRefused()
    ensures ParseTrimmed("_1") == None && ParseTrimmed("1_") == None && ParseTrimmed("1__0") == None
  {
    assert !IsDigit('_');
    assert "1__0"[2] == '_' && "1__0"[1] == '_';
  }

  /** Reading back the digits of a natural number gives the number. */
  lemma {:induction false} DigitsOfNat(n: nat)
    ensures AllDigits(NatToString(n)) && DigitsValue(NatToString(n)) == n
    decreases n
  {
    var s := NatToString(n);
    if n >= 10 {
      DigitsOfNat(n / 10);
      var p := NatToString(n / 10);
      assert s == p + [DigitChar(n % 10)];
      assert s[..|s| - 1] == p;
    }
    assert DigitChar(n % 10) as int - '0' as int == n % 10 by {
      DigitCharValue(n % 10);
    }
  }

  lemma DigitCharValue(d: nat)
    requires d < 10
    ensures DigitChar(d) as int - '0' as int == d
  {
  }

  /** `int(str(n)) == n`. */
  lemma ParseIntToString(n: int)
    ensures ParseInt(IntToString(n)) == Some(n)
  {
    var s := IntToString(n);
    if n < 0 {
      var m: nat := -n;
      assert s == "-" + NatToString(m);
      ParseNegative(m);
    } else {
      assert s == NatToString(n);
      ParseNatural(n);
    }
  }

  lemma ParseNatural(n: nat)
    ensures ParseInt(NatToString(n)) == Some(n)
  {
    DigitsOfNat(n);
    ParseDigits(NatToString(n));
  }

  /** A non-empty run of digits reads as its value. */
  lemma ParseDigits(s: string)
    requires s != [] && AllDigits(s)
    ensures ParseInt(s) == Some(DigitsValue(s))
  {
    assert IsDigit(s[0]) && IsDigit(s[|s| - 1]);
    DigitNotSpace(s[0]);
    DigitNotSpace(s[|s| - 1]);
    StripOfTrimmed(s);
  }

  lemma ParseNegative(m: nat)
    requires m > 0
    ensures ParseInt("-" + NatToString(m)) == Some(-(m as int))
  {
    var digits := NatToString(m);
    var s := "-" + digits;
    DigitsOfNat(m);
    assert s[1..] == digits;
    ParseSigned(s);
    SignedTrimmed(s);
  }

  /** A minus sign followed by digits has no surrounding whitespace. */
  lemma SignedTrimmed(s: string)
    requires |s| > 1 && s[0] == '-' && AllDigits(s[1..])
    ensures Strip(s) == s
  {
    var last := s[1..][|s| - 2];
    assert s[|s| - 1] == last;
    DigitNotSpace(last);
    assert !IsSpace(s[0]);
    StripOfTrimmed(s);
  }

  /** A minus sign followed by digits reads as the negated digits. */
  lemma ParseSigned(t: string)
    requires |t| > 1 && t[0] == '-' && AllDigits(t[1..])
    ensures ParseTrimmed(t) == Some(-(DigitsValue(t[1..]) as int))
  {
    DigitsGrouped(t[1..]);
  }

  lemma DigitNotSpace(c: char)
    requires '0' <= c <= '9'
    ensures !IsSpace(c)
  {
  }
}
