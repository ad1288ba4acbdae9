/**
 * lib/constants/validation.ts: the numeric validity checks, the percentage
 * and amount schemas, and the account-code, US tax-id, hex-colour, percentage
 * and UUID patterns.
 */
module ValidationRules {
  import opened Common
  import opened Text
  import opened Patterns

  // ---------------------------------------------------------------------
  // Numeric checks
  // ---------------------------------------------------------------------

  /** `FIELD_CONSTRAINTS.amount.max` */
  const MaxAmount: real := 999999999999.9999

  /** `isValidAmount` */
  predicate IsValidAmount(amount: real) {
    amount >= 0.0 && amount <= MaxAmount
  }

  /** `amountSchema`: non-negative, at most the maximum amount. */
  function AmountSchema(amount: real): (r: Result<real>)
    ensures r.Ok? <==> IsValidAmount(amount)
    ensures r.Ok? ==> r.value == amount && amount < 1000000000000.0
    ensures r.Err? ==> r.error == BadRequest
  {
    if amount < 0.0 then Err(BadRequest)
    else if amount > MaxAmount then Err(BadRequest)
    else Ok(amount)
  }

  /** `isValidPercentage` */
  predicate IsValidPercentage(value: real) {
    value >= 0.0 && value <= 100.0
  }

  /** `percentageSchema`, which `taxRateSchema` and `discountSchema` reuse. */
  function PercentageSchema(value: real): (r: Result<real>)
    ensures r.Ok? <==> IsValidPercentage(value)
    ensures r.Ok? ==> r.value == value
  {
    if value < 0.0 then Err(BadRequest)
    else if value > 100.0 then Err(BadRequest)
    else Ok(value)
  }

  function TaxRateSchema(value: real): Result<real> {
    PercentageSchema(value)
  }

  function DiscountSchema(value: real): Result<real> {
    PercentageSchema(value)
  }

  /** `isValidDateRange(start, end)` on timestamps: the end is not before the start. */
  predicate IsValidDateRange(start: int, end: int) {
    end >= start
  }

  /** A one-instant range is valid, and valid ranges chain. */
  lemma DateRangeReflexiveAndTransitive(a: int, b: int, c: int)
    ensures IsValidDateRange(a, a)
    ensures IsValidDateRange(a, b) && IsValidDateRange(b, c) ==> IsValidDateRange(a, c)
    ensures IsValidDateRange(a, b) && IsValidDateRange(b, a) ==> a == b
  {
  }

  // ---------------------------------------------------------------------
  // Character classes
  // ---------------------------------------------------------------------

  predicate IsUpperAscii(c: char) {
    'A' <= c <= 'Z'
  }

  /** `[A-Z0-9-]` */
  predicate IsAccountCodeChar(c: char) {
    IsUpperAscii(c) || IsDigit(c) || c == '-'
  }

  /** `[A-Fa-f0-9]`, which is also `[0-9a-f]` under the `i` flag. */
  predicate IsHexDigit(c: char) {
    IsDigit(c) || 'a' <= c <= 'f' || 'A' <= c <= 'F'
  }

  /** `[89ab]` under the `i` flag. */
  predicate IsUuidVariant(c: char) {
    c == '8' || c == '9' || c == 'a' || c == 'b' || c == 'A' || c == 'B'
  }

  // ---------------------------------------------------------------------
  // Account code: ^[A-Z0-9-]{1,20}$
  // ---------------------------------------------------------------------

  const AccountCodePattern: seq<Atom> := [Atom(1, 20, IsAccountCodeChar)]

  /** `accountCodeSchema`: length 1 to 20 and the account-code pattern. */
  function AccountCodeSchema(code: string): (r: Result<string>)
    ensures r.Ok? <==> 1 <= |code| <= 20 && forall i :: 0 <= i < |code| ==> IsAccountCodeChar(code[i])
    ensures r.Ok? ==> r.value == code
  {
    SingleAtom(code, AccountCodePattern[0]);
    if |code| < 1 || |code| > 20 || !Matches(code, AccountCodePattern) then Err(BadRequest) else Ok(code)
  }

  /** The length limits are implied by the pattern itself. */
  lemma AccountCodeLengthFromPattern(code: string)
    ensures Matches(code, AccountCodePattern) ==> 1 <= |code| <= 20
    ensures AccountCodeSchema(code).Ok? <==> Matches(code, AccountCodePattern)
  {
    SingleAtom(code, AccountCodePattern[0]);
  }

  // ---------------------------------------------------------------------
  // US tax id: ^\d{2}-?\d{7}$
  // ---------------------------------------------------------------------

  const TaxIdPlain: seq<Atom> := [Exactly(2, IsDigit), Exactly(7, IsDigit)]
  const TaxIdDashed: seq<Atom> := [Exactly(2, IsDigit), Lit('-'), Exactly(7, IsDigit)]

  /** `REGEX_PATTERNS.taxIdUS.test(s)`: the optional dash as two alternatives. */
  predicate IsTaxIdUS(s: string) {
    Matches(s, TaxIdPlain) || Matches(s, TaxIdDashed)
  }

  /** Nine digits, or two digits, a dash and seven digits. */
  lemma TaxIdUSShape(s: string)
    ensures IsTaxIdUS(s) <==>
              (|s| == 9 && AllDigits(s)) ||
              (|s| == 10 && s[2] == '-' && AllDigits(s[..2]) && AllDigits(s[3..]))
    ensures IsTaxIdUS(s) ==> |s| == 9 || |s| == 10
  {
    var d2 := Exactly(2, IsDigit);
    var d7 := Exactly(7, IsDigit);
    var dash := Lit('-');
    ExpandCons(d7, []);
    ExpandCons(d2, [d7]);
    ExpandCons(dash, [d7]);
    ExpandCons(d2, [dash, d7]);
    assert [d2] + [d7] == TaxIdPlain;
    assert [d2] + [dash, d7] == TaxIdDashed;
    var plain := Expand(TaxIdPlain);
    var dashed := Expand(TaxIdDashed);
    assert plain == Repeat(IsDigit, 2) + Repeat(IsDigit, 7);
    assert dashed == Repeat(IsDigit, 2) + Repeat(dash.cls, 1) + Repeat(IsDigit, 7);
    MatchesPointwise(s, TaxIdPlain);
    MatchesPointwise(s, TaxIdDashed);
    if |s| == 10 {
      assert (forall i :: 0 <= i < 10 ==> dashed[i](s[i])) <==>
             (s[2] == '-' && AllDigits(s[..2]) && AllDigits(s[3..])) by {
        assert forall i :: 0 <= i < 2 ==> s[..2][i] == s[i];
        assert forall i :: 3 <= i < 10 ==> s[3..][i - 3] == s[i];
      }
    }
  }

  // ---------------------------------------------------------------------
  // Hex colour: ^#([A-Fa-f0-9]{6}|[A-Fa-f0-9]{3})$
  // ---------------------------------------------------------------------

  const HexColorLong: seq<Atom> := [Lit('#'), Exactly(6, IsHexDigit)]
  const HexColorShort: seq<Atom> := [Lit('#'), Exactly(3, IsHexDigit)]

  /** `REGEX_PATTERNS.hexColor.test(s)` */
  predicate IsHexColor(s: string) {
    Matches(s, HexColorLong) || Matches(s, HexColorShort)
  }

  /** `#` followed by exactly three or six hex digits. */
  lemma HexColorShape(s: string)
    ensures IsHexColor(s) <==>
              (|s| == 7 || |s| == 4) && s[0] == '#' && forall i :: 1 <= i < |s| ==> IsHexDigit(s[i])
  {
    var hash := Lit('#');
    var h6 := Exactly(6, IsHexDigit);
    var h3 := Exactly(3, IsHexDigit);
    ExpandCons(h6, []);
    ExpandCons(h3, []);
    ExpandCons(hash, [h6]);
    ExpandCons(hash, [h3]);
    assert [hash] + [h6] == HexColorLong;
    assert [hash] + [h3] == HexColorShort;
    assert Expand(HexColorLong) == Repeat(hash.cls, 1) + Repeat(IsHexDigit, 6);
    assert Expand(HexColorShort) == Repeat(hash.cls, 1) + Repeat(IsHexDigit, 3);
    MatchesPointwise(s, HexColorLong);
    MatchesPointwise(s, HexColorShort);
  }

  // ---------------------------------------------------------------------
  // UUID: ^[0-9a-f]{8}-[0-9a-f]{4}-4[0-9a-f]{3}-[89ab][0-9a-f]{3}-[0-9a-f]{12}$ (case-insensitive)
  // ---------------------------------------------------------------------

  const UuidPattern: seq<Atom> := [
    Exactly(8, IsHexDigit), Lit('-'),
    Exactly(4, IsHexDigit), Lit('-'),
    Lit('4'), Exactly(3, IsHexDigit), Lit('-'),
    Exactly(1, IsUuidVariant), Exactly(3, IsHexDigit), Lit('-'),
    Exactly(12, IsHexDigit)]

  /** `REGEX_PATTERNS.uuid.test(s)` */
  predicate IsUuid(s: string) {
    Matches(s, UuidPattern)
  }

  predicate IsUuidDashPosition(i: int) {
    i == 8 || i == 13 || i == 18 || i == 23
  }

  /** The version-4 layout of section 4 of RFC 4122 in its 8-4-4-4-12 text form. */
  predicate IsVersion4Layout(s: string) {
    && |s| == 36
    && (forall i :: 0 <= i < 36 && IsUuidDashPosition(i) ==> s[i] == '-')
    && (forall i :: 0 <= i < 36 && !IsUuidDashPosition(i) ==> IsHexDigit(s[i]))
    && s[14] == '4'
    && IsUuidVariant(s[19])
  }

  /** What the version-4 layout demands of the character at position `i`. */
  predicate UuidCharOk(i: int, c: char) {
    if IsUuidDashPosition(i) then c == '-'
    else if i == 14 then c == '4'
    else if i == 19 then IsUuidVariant(c)
    else IsHexDigit(c)
  }

  /** The pattern accepts exactly the version-4 layout: version nibble 4, variant 10xx, hex groups. */
  lemma UuidPatternIsVersion4(s: string)
    ensures IsUuid(s) <==> IsVersion4Layout(s)
  {
    UuidExpansion();
    MatchesPointwise(s, UuidPattern);
    if |s| == 36 {
      assert (forall i :: 0 <= i < 36 ==> UuidCharOk(i, s[i])) <==> IsVersion4Layout(s);
    }
  }

  lemma UuidExpansion()
    ensures |Expand(UuidPattern)| == 36
    ensures forall i, c :: 0 <= i < 36 ==> (Expand(UuidPattern)[i](c) <==> UuidCharOk(i, c))
  {
    UuidHeadExpansion();
    UuidTailExpansion();
    assert UuidPattern == UuidHead + UuidTail;
    ExpandAppend(UuidHead, UuidTail);
    var head, tail := Expand(UuidHead), Expand(UuidTail);
    forall i, c | 0 <= i < 36 ensures Expand(UuidPattern)[i](c) <==> UuidCharOk(i, c) {
      if i >= 18 {
        assert Expand(UuidPattern)[i] == tail[i - 18];
      }
    }
  }

  /** The first eighteen positions: `[0-9a-f]{8}-[0-9a-f]{4}-4[0-9a-f]{3}`. */
  const UuidHead: seq<Atom> :=
    [Exactly(8, IsHexDigit), Lit('-'), Exactly(4, IsHexDigit), Lit('-'), Lit('4'), Exactly(3, IsHexDigit)]

  lemma UuidHeadExpansion()
    ensures |Expand(UuidHead)| == 18
    ensures forall i, c :: 0 <= i < 18 ==> (Expand(UuidHead)[i](c) <==> UuidCharOk(i, c))
  {
    var h8, h4, h3 := Exactly(8, IsHexDigit), Exactly(4, IsHexDigit), Exactly(3, IsHexDigit);
    var dash, four := Lit('-'), Lit('4');
    var q5 := [h3];
    ExpandCons(h3, []);
    var q4 := [four] + q5;
    ExpandCons(four, q5);
    var q3 := [dash] + q4;
    ExpandCons(dash, q4);
    var q2 := [h4] + q3;
    ExpandCons(h4, q3);
    var q1 := [dash] + q2;
    ExpandCons(dash, q2);
    var q0 := [h8] + q1;
    ExpandCons(h8, q1);
    assert q0 == UuidHead;
    var e0, e1, e2, e3, e4, e5 := Expand(q0), Expand(q1), Expand(q2), Expand(q3), Expand(q4), Expand(q5);
    forall i, c | 0 <= i < 18 ensures e0[i](c) <==> UuidCharOk(i, c) {
      if i < 8 { assert e0[i] == IsHexDigit; }
      else if i < 9 { assert e0[i] == e1[i - 8] == dash.cls; }
      else if i < 13 { assert e0[i] == e1[i - 8] == e2[i - 9] == IsHexDigit; }
      else if i < 14 { assert e0[i] == e1[i - 8] == e2[i - 9] == e3[i - 13] == dash.cls; }
      else if i < 15 { assert e0[i] == e1[i - 8] == e2[i - 9] == e3[i - 13] == e4[i - 14] == four.cls; }
      else { assert e0[i] == e1[i - 8] == e2[i - 9] == e3[i - 13] == e4[i - 14] == e5[i - 15] == IsHexDigit; }
    }
  }

  /** The last eighteen positions: `-[89ab][0-9a-f]{3}-[0-9a-f]{12}`. */
  const UuidTail: seq<Atom> := [Lit('-'), Exactly(1, IsUuidVariant), Exactly(3, IsHexDigit), Lit('-'), Exactly(12, IsHexDigit)]

  lemma UuidTailExpansion()
    ensures |Expand(UuidTail)| == 18
    ensures forall j, c :: 0 <= j < 18 ==> (Expand(UuidTail)[j](c) <==> UuidCharOk(j + 18, c))
  {
    var h3, h12 := Exactly(3, IsHexDigit), Exactly(12, IsHexDigit);
    var dash, variant := Lit('-'), Exactly(1, IsUuidVariant);
    var q10 := [h12];
    ExpandCons(h12, []);
    var q9 := [dash] + q10;
    ExpandCons(dash, q10);
    var q8 := [h3] + q9;
    ExpandCons(h3, q9);
    var q7 := [variant] + q8;
    ExpandCons(variant, q8);
    var q6 := [dash] + q7;
    ExpandCons(dash, q7);
    assert q6 == UuidTail;
    var e6, e7, e8, e9, e10 := Expand(q6), Expand(q7), Expand(q8), Expand(q9), Expand(q10);
    forall j, c | 0 <= j < 18 ensures e6[j](c) <==> UuidCharOk(j + 18, c) {
      if j < 1 { assert e6[j] == dash.cls; }
      else if j < 2 { assert e6[j] == e7[j - 1] == IsUuidVariant; }
      else if j < 5 { assert e6[j] == e7[j - 1] == e8[j - 2] == IsHexDigit; }
      else if j < 6 { assert e6[j] == e7[j - 1] == e8[j - 2] == e9[j - 5] == dash.cls; }
      else { assert e6[j] == e7[j - 1] == e8[j - 2] == e9[j - 5] == e10[j - 6] == IsHexDigit; }
    }
  }

  // ---------------------------------------------------------------------
  // Percentage: ^(100(\.0{1,2})?|[0-9]?[0-9](\.\d{1,2})?)$
  // ---------------------------------------------------------------------

  predicate IsZero(c: char) {
    c == '0'
  }

  const Hundred: seq<Atom> := Literal("100")
  const HundredPoint: seq<Atom> := Literal("100.") + [Atom(1, 2, IsZero)]
  /** `[0-9]?[0-9]` is one or two digits. */
  const Whole: seq<Atom> := [Atom(1, 2, IsDigit)]
  const WholePoint: seq<Atom> := Whole + [Lit('.'), Atom(1, 2, IsDigit)]

  /** `REGEX_PATTERNS.percentage.test(s)`, the two optional fraction groups as alternatives. */
  predicate IsPercentageText(s: string) {
    Matches(s, Hundred) || Matches(s, HundredPoint) || Matches(s, Whole) || Matches(s, WholePoint)
  }

  /** The decimal `s` denotes, in hundredths, for a numeral with at most two decimals. */
  function Hundredths(whole: string, fraction: string): (n: nat)
    requires AllDigits(whole) && AllDigits(fraction) && |fraction| <= 2
  {
    ParseDigits(whole) * 100 +
    (if |fraction| == 0 then 0 else if |fraction| == 1 then ParseDigits(fraction) * 10 else ParseDigits(fraction))
  }

  /** The value a decimal numeral `whole.fraction` denotes. */
  function DecimalValue(whole: string, fraction: string): real
    requires AllDigits(whole) && AllDigits(fraction)
  {
    ParseDigits(whole) as real + ParseDigits(fraction) as real / Pow10(|fraction|) as real
  }

  function Pow10(n: nat): (p: nat)
    ensures p >= 1
  {
    if n == 0 then 1 else 10 * Pow10(n - 1)
  }

  lemma {:induction false} ParseDigitsBelowPow10(s: string)
    requires AllDigits(s)
    ensures ParseDigits(s) < Pow10(|s|)
    decreases |s|
  {
    if s != [] {
      var init := s[..|s| - 1];
      assert AllDigits(init) by {
        forall i | 0 <= i < |init| ensures IsDigit(init[i]) {
          assert init[i] == s[i];
        }
      }
      ParseDigitsBelowPow10(init);
      assert ParseDigits(s) == ParseDigits(init) * 10 + DigitValue(s[|s| - 1]);
    }
  }

  /** The numeral `s` split at its first `.` into whole and fraction digits. */
  function SplitDecimal(s: string): (string, string) {
    if '.' in s then var i := IndexOf(s, '.'); (s[..i], s[i + 1..]) else (s, "")
  }

  /** The value a percentage text stands for. */
  function PercentageValue(s: string): (v: real)
    requires IsPercentageText(s)
  {
    PercentageParts(s);
    DecimalValue(SplitDecimal(s).0, SplitDecimal(s).1)
  }

  /** Digits before and at most two digits after the point; a three-digit whole part is exactly 100. */
  predicate PercentParts(parts: (string, string)) {
    var (whole, fraction) := parts;
    && AllDigits(whole) && AllDigits(fraction) && 1 <= |whole| <= 3 && |fraction| <= 2
    && (|whole| == 3 ==> ParseDigits(whole) == 100 && ParseDigits(fraction) == 0)
  }

  lemma PercentageParts(s: string)
    requires IsPercentageText(s)
    ensures PercentParts(SplitDecimal(s))
  {
    if Matches(s, Hundred) {
      HundredParts(s);
    } else if Matches(s, HundredPoint) {
      HundredPointParts(s);
    } else if Matches(s, Whole) {
      WholeParts(s);
    } else {
      WholePointParts(s);
    }
  }

  lemma ParseHundred()
    ensures AllDigits("100") && ParseDigits("100") == 100
  {
    assert "100"[..2] == "10";
    assert "10"[..1] == "1";
    assert "1"[..0] == "";
  }

  lemma HundredParts(s: string)
    requires Matches(s, Hundred)
    ensures PercentParts(SplitDecimal(s))
  {
    MatchesAfterLiteral(s, "100", []);
    assert Literal("100") + [] == Hundred;
    assert s[3..] == [];
    assert s == "100";
    HundredText();
  }

  lemma HundredText()
    ensures PercentParts(SplitDecimal("100"))
  {
    assert '.' !in "100";
    ParseHundred();
    assert ParseDigits("") == 0;
  }

  /** `s` is `prefix.fraction` where `prefix` has no point. */
  lemma SplitAtPoint(s: string, whole: string, fraction: string)
    requires s == whole + "." + fraction && '.' !in whole
    ensures SplitDecimal(s) == (whole, fraction)
  {
    assert s[|whole|] == '.';
    assert s[..|whole|] == whole;
    assert s[|whole| + 1..] == fraction;
  }

  lemma TwoDigitsBelow100(f: string)
    requires AllDigits(f) && 1 <= |f| <= 2
    ensures ParseDigits(f) < 100
    ensures AllIn(f, IsZero) ==> ParseDigits(f) == 0
  {
    ParseDigitsBelowPow10(f);
    assert Pow10(1) == 10;
    assert Pow10(2) == 100;
    if AllIn(f, IsZero) {
      if |f| == 1 {
        assert ParseDigits(f) == ParseDigits(f[..0]) * 10 + DigitValue(f[0]);
      } else {
        assert f[..1][..0] == [];
        assert ParseDigits(f[..1]) == 0;
        assert ParseDigits(f) == ParseDigits(f[..1]) * 10 + DigitValue(f[1]);
      }
    }
  }

  lemma HundredPointParts(s: string)
    requires Matches(s, HundredPoint)
    ensures PercentParts(SplitDecimal(s))
  {
    var zeros := Atom(1, 2, IsZero);
    MatchesAfterLiteral(s, "100.", [zeros]);
    var fraction := s[4..];
    SingleAtom(fraction, zeros);
    assert s == "100" + "." + fraction by {
      assert s == s[..4] + fraction;
    }
    SplitAtPoint(s, "100", fraction);
    assert AllDigits(fraction);
    TwoDigitsBelow100(fraction);
    ParseHundred();
  }

  lemma WholeParts(s: string)
    requires Matches(s, Whole)
    ensures PercentParts(SplitDecimal(s))
  {
    SingleAtom(s, Whole[0]);
    assert '.' !in s;
  }

  lemma WholePointParts(s: string)
    requires Matches(s, WholePoint)
    ensures PercentParts(SplitDecimal(s))
  {
    var p := WholePoint;
    var k0 := FirstStep(s, p);
    var whole, s1, p1 := s[..k0], s[k0..], p[1..];
    assert AllDigits(whole) && 1 <= |whole| <= 2 && '.' !in whole by {
      assert p[0] == Atom(1, 2, IsDigit);
    }
    var k1 := FirstStep(s1, p1);
    var fraction, p2 := s1[k1..], p1[1..];
    assert s == whole + "." + fraction by {
      assert p1[0] == Lit('.');
      assert k1 == 1 && s1[..1] == ".";
    }
    assert AllDigits(fraction) && |fraction| <= 2 by {
      assert p2 == [Atom(1, 2, IsDigit)];
      SingleAtom(fraction, p2[0]);
    }
    SplitAtPoint(s, whole, fraction);
  }

  /**
   * A percentage text stands for a value in [0, 100] with at most two
   * decimals, so it is also a valid percentage number.
   */
  lemma PercentageTextInRange(s: string)
    requires IsPercentageText(s)
    ensures AllDigits(SplitDecimal(s).0) && AllDigits(SplitDecimal(s).1) && |SplitDecimal(s).1| <= 2
    ensures PercentageValue(s) == Hundredths(SplitDecimal(s).0, SplitDecimal(s).1) as real / 100.0
    ensures Hundredths(SplitDecimal(s).0, SplitDecimal(s).1) <= 10000
    ensures IsValidPercentage(PercentageValue(s))
  {
    PercentageParts(s);
    PartsInRange(SplitDecimal(s).0, SplitDecimal(s).1);
  }

  lemma PartsInRange(whole: string, fraction: string)
    requires PercentParts((whole, fraction))
    ensures DecimalValue(whole, fraction) == Hundredths(whole, fraction) as real / 100.0
    ensures Hundredths(whole, fraction) <= 10000
  {
    ParseDigitsBelowPow10(whole);
    ParseDigitsBelowPow10(fraction);
    var w := ParseDigits(whole);
    var f := ParseDigits(fraction);
    if |fraction| == 0 {
      assert f == 0;
    } else if |fraction| == 1 {
      assert Pow10(1) == 10;
    } else {
      assert Pow10(2) == 100;
    }
    assert |whole| <= 2 ==> w <= 99 by {
      if |whole| == 1 { assert Pow10(1) == 10; }
      if |whole| == 2 { assert Pow10(2) == 100; }
    }
  }
}
