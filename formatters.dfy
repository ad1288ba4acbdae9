/**
 * hooks/use-formatters.ts: the formatters that do not call `Intl` (phone
 * number, tax id, relative time, file size, capitalisation, snake case to
 * title case).
 */
module Formatters {
  import opened Text
  import ValidationRules

  // ---------------------------------------------------------------------
  // Phone number and tax id
  // ---------------------------------------------------------------------

  /** `s.replace(/\D/g, "")`: the digits of `s`, in order. */
  function KeepDigits(s: string): (r: string)
    ensures AllDigits(r) && |r| <= |s|
  {
    if s == [] then []
    else if IsDigit(s[0]) then [s[0]] + KeepDigits(s[1..])
    else KeepDigits(s[1..])
  }

  lemma {:induction false} KeepDigitsAppend(a: string, b: string)
    ensures KeepDigits(a + b) == KeepDigits(a) + KeepDigits(b)
    decreases |a|
  {
    if a != [] {
      assert (a + b)[1..] == a[1..] + b;
      KeepDigitsAppend(a[1..], b);
    } else {
      assert a + b == b;
    }
  }

  lemma {:induction false} KeepDigitsOfDigits(s: string)
    requires AllDigits(s)
    ensures KeepDigits(s) == s
    decreases |s|
  {
    if s != [] {
      KeepDigitsOfDigits(s[1..]);
    }
  }

  /** `formatPhoneNumber`: ten digits become `(ddd) ddd-dddd`, anything else is returned unchanged. */
  function FormatPhoneNumber(phone: string): (r: string)
    ensures |KeepDigits(phone)| != 10 ==> r == phone
    ensures |KeepDigits(phone)| == 10 ==> |r| == 14 && r[0] == '(' && r[4] == ')' && r[5] == ' ' && r[9] == '-'
  {
    var cleaned := KeepDigits(phone);
    if |cleaned| == 10 then "(" + cleaned[..3] + ") " + cleaned[3..6] + "-" + cleaned[6..] else phone
  }

  /** Formatting keeps the digits, in order. */
  lemma PhoneKeepsDigits(phone: string)
    ensures KeepDigits(FormatPhoneNumber(phone)) == KeepDigits(phone)
  {
    var c := KeepDigits(phone);
    if |c| == 10 {
      var a, b, d := c[..3], c[3..6], c[6..];
      PhoneLayoutDigits(a, b, d);
      assert a + b + d == c;
    }
  }

  /** The punctuation of `(aaa) bbb-dddd` holds no digit, so only the three groups remain. */
  lemma PhoneLayoutDigits(a: string, b: string, d: string)
    requires AllDigits(a) && AllDigits(b) && AllDigits(d)
    ensures KeepDigits("(" + a + ") " + b + "-" + d) == a + b + d
  {
    KeepDigitsOfDigits(a);
    KeepDigitsOfDigits(b);
    KeepDigitsOfDigits(d);
    assert KeepDigits("(") == [] && KeepDigits(") ") == [] && KeepDigits("-") == [];
    var x1 := "(" + a;
    KeepDigitsAppend("(", a);
    assert KeepDigits(x1) == a;
    var x2 := x1 + ") ";
    KeepDigitsAppend(x1, ") ");
    assert KeepDigits(x2) == a;
    var x3 := x2 + b;
    KeepDigitsAppend(x2, b);
    assert KeepDigits(x3) == a + b;
    var x4 := x3 + "-";
    KeepDigitsAppend(x3, "-");
    assert KeepDigits(x4) == a + b;
    KeepDigitsAppend(x4, d);
  }

  /** Formatting a formatted number changes nothing. */
  lemma PhoneIdempotent(phone: string)
    ensures FormatPhoneNumber(FormatPhoneNumber(phone)) == FormatPhoneNumber(phone)
  {
    PhoneKeepsDigits(phone);
    var c := KeepDigits(phone);
    if |c| == 10 {
      var f := FormatPhoneNumber(phone);
      assert KeepDigits(f) == c;
    }
  }

  /** `formatTaxId`: nine digits become `dd-ddddddd`, anything else is returned unchanged. */
  function FormatTaxId(taxId: string): (r: string)
    ensures |KeepDigits(taxId)| != 9 ==> r == taxId
    ensures |KeepDigits(taxId)| == 9 ==> |r| == 10 && r[2] == '-'
  {
    var cleaned := KeepDigits(taxId);
    if |cleaned| == 9 then cleaned[..2] + "-" + cleaned[2..] else taxId
  }

  lemma TaxIdKeepsDigits(taxId: string)
    ensures KeepDigits(FormatTaxId(taxId)) == KeepDigits(taxId)
  {
    var c := KeepDigits(taxId);
    if |c| == 9 {
      var a, b := c[..2], c[2..];
      KeepDigitsOfDigits(a);
      KeepDigitsOfDigits(b);
      assert KeepDigits("-") == [];
      KeepDigitsAppend(a, "-");
      KeepDigitsAppend(a + "-", b);
      assert a + b == c;
    }
  }

  lemma TaxIdIdempotent(taxId: string)
    ensures FormatTaxId(FormatTaxId(taxId)) == FormatTaxId(taxId)
  {
    TaxIdKeepsDigits(taxId);
  }

  /** A formatted nine-digit tax id is in the dashed form the US tax-id pattern accepts. */
  lemma FormattedTaxIdIsValid(taxId: string)
    requires |KeepDigits(taxId)| == 9
    ensures ValidationRules.IsTaxIdUS(FormatTaxId(taxId))
  {
    var c := KeepDigits(taxId);
    var r := FormatTaxId(taxId);
    assert r[..2] == c[..2];
    assert r[3..] == c[2..];
    ValidationRules.TaxIdUSShape(r);
  }

  // ---------------------------------------------------------------------
  // Relative time
  // ---------------------------------------------------------------------

  /** The unit `formatRelativeTime` picks and the count it shows. */
  datatype RelativeTime = JustNow | MinutesAgo(n: int) | HoursAgo(n: int) | DaysAgo(n: int)
                        | WeeksAgo(n: int) | MonthsAgo(n: int) | YearsAgo(n: int)

  /** `${n}m ago` and so on. */
  function RenderRelativeTime(t: RelativeTime): string {
    match t
    case JustNow => "Just now"
    case MinutesAgo(n) => IntToString(n) + "m ago"
    case HoursAgo(n) => IntToString(n) + "h ago"
    case DaysAgo(n) => IntToString(n) + "d ago"
    case WeeksAgo(n) => IntToString(n) + "w ago"
    case MonthsAgo(n) => IntToString(n) + "mo ago"
    case YearsAgo(n) => IntToString(n) + "y ago"
  }

  /**
   * `formatRelativeTime` for a difference `now - date` of `diffMs`
   * milliseconds, as written. Every `Math.floor` has a positive divisor,
   * where Dafny's division is the floor.
   */
  function ClassifyElapsed(diffMs: int): (t: RelativeTime)
    ensures t == JustNow <==> diffMs < 60000
    ensures t.MinutesAgo? <==> 60000 <= diffMs < 3600000
    ensures t.HoursAgo? <==> 3600000 <= diffMs < 86400000
    ensures t.DaysAgo? <==> 1 <= diffMs / 86400000 < 7
    ensures t.WeeksAgo? <==> 7 <= diffMs / 86400000 < 28
    ensures t.MonthsAgo? <==> 28 <= diffMs / 86400000 < 360
    ensures t.YearsAgo? <==> diffMs / 86400000 >= 360
    ensures t.MinutesAgo? ==> 1 <= t.n < 60 && t.n == diffMs / 60000
    ensures t.HoursAgo? ==> 1 <= t.n < 24 && t.n == diffMs / 3600000
    ensures t.DaysAgo? ==> 1 <= t.n < 7 && t.n == diffMs / 86400000
    ensures t.WeeksAgo? ==> 1 <= t.n < 4 && t.n == diffMs / 86400000 / 7
    ensures t.MonthsAgo? ==> 0 <= t.n < 12 && t.n == diffMs / 86400000 / 30
    ensures t.YearsAgo? ==> t.n == diffMs / 86400000 / 365
  {
    NestedFloors(diffMs);
    var diffSec := diffMs / 1000;
    var diffMin := diffSec / 60;
    var diffHour := diffMin / 60;
    var diffDay := diffHour / 24;
    var diffWeek := diffDay / 7;
    var diffMonth := diffDay / 30;
    var diffYear := diffDay / 365;
    if diffSec < 60 then JustNow
    else if diffMin < 60 then MinutesAgo(diffMin)
    else if diffHour < 24 then HoursAgo(diffHour)
    else if diffDay < 7 then DaysAgo(diffDay)
    else if diffWeek < 4 then WeeksAgo(diffWeek)
    else if diffMonth < 12 then MonthsAgo(diffMonth)
    else YearsAgo(diffYear)
  }

  /** `formatRelativeTime(date)` at time `now`: "Just now" under a minute, otherwise a count and "ago". */
  function FormatRelativeTime(nowMs: int, dateMs: int): (r: string)
    ensures r == "Just now" <==> nowMs - dateMs < 60000
    ensures nowMs - dateMs >= 60000 ==> |r| > 4 && r[|r| - 4..] == " ago"
  {
    var t := ClassifyElapsed(nowMs - dateMs);
    var r := RenderRelativeTime(t);
    if t == JustNow then r
    else
      var unit := match t case MinutesAgo(_) => "m" case HoursAgo(_) => "h" case DaysAgo(_) => "d"
                          case WeeksAgo(_) => "w" case MonthsAgo(_) => "mo" case YearsAgo(_) => "y";
      assert r == IntToString(t.n) + unit + " ago";
      assert r[|r| - 1] == 'o' && "Just now"[7] == 'w';
      r
  }

  /** The nested floors are the floors of the whole quotient. */
  lemma NestedFloors(diffMs: int)
    ensures diffMs / 1000 / 60 == diffMs / 60000
    ensures diffMs / 1000 / 60 / 60 == diffMs / 3600000
    ensures diffMs / 1000 / 60 / 60 / 24 == diffMs / 86400000
  {
  }

  /** Four weeks in, the month count is still zero: 28 and 29 days show as `0mo ago`. */
  lemma ZeroMonthsShown()
    ensures ClassifyElapsed(28 * 86400000) == MonthsAgo(0)
    ensures FormatRelativeTime(28 * 86400000, 0) == "0mo ago"
  {
    NestedFloors(28 * 86400000);
  }

  /** Twelve 30-day months are not yet a 365-day year: 360 to 364 days show as `0y ago`. */
  lemma ZeroYearsShown()
    ensures ClassifyElapsed(360 * 86400000) == YearsAgo(0)
    ensures FormatRelativeTime(360 * 86400000, 0) == "0y ago"
  {
    NestedFloors(360 * 86400000);
  }

  /**
   * The relative time with each unit kept until the next one reaches 1:
   * weeks until a 30-day month has passed, months until a 365-day year has.
   */
  function ClassifyElapsedFixed(diffMs: int): (t: RelativeTime)
    ensures t == JustNow <==> diffMs < 60000
    ensures t.MinutesAgo? <==> 60000 <= diffMs < 3600000
    ensures t.HoursAgo? <==> 3600000 <= diffMs < 86400000
    ensures t.DaysAgo? <==> 1 <= diffMs / 86400000 < 7
    ensures t.WeeksAgo? <==> 7 <= diffMs / 86400000 < 30
    ensures t.MonthsAgo? <==> 30 <= diffMs / 86400000 < 365
    ensures t.YearsAgo? <==> diffMs / 86400000 >= 365
    ensures !t.JustNow? ==> t.n >= 1
    ensures t.MinutesAgo? ==> t.n < 60 && t.n == diffMs / 60000
    ensures t.HoursAgo? ==> t.n < 24 && t.n == diffMs / 3600000
    ensures t.DaysAgo? ==> t.n < 7 && t.n == diffMs / 86400000
    ensures t.WeeksAgo? ==> t.n <= 4 && t.n == diffMs / 86400000 / 7
    ensures t.MonthsAgo? ==> t.n <= 12 && t.n == diffMs / 86400000 / 30
    ensures t.YearsAgo? ==> t.n == diffMs / 86400000 / 365
  {
    NestedFloors(diffMs);
    var diffDay := diffMs / 86400000;
    var diffWeek := diffDay / 7;
    var diffMonth := diffDay / 30;
    var diffYear := diffDay / 365;
    if diffMs < 60000 then JustNow
    else if diffMs / 60000 < 60 then MinutesAgo(diffMs / 60000)
    else if diffMs / 3600000 < 24 then HoursAgo(diffMs / 3600000)
    else if diffDay < 7 then DaysAgo(diffDay)
    else if diffWeek < 4 || diffMonth < 1 then WeeksAgo(diffWeek)
    else if diffMonth < 12 || diffYear < 1 then MonthsAgo(diffMonth)
    else YearsAgo(diffYear)
  }

  /** The two agree except on the 28-29 and 360-364 day windows. */
  lemma FixedAgreesOutsideWindows(diffMs: int)
    requires var d := diffMs / 86400000; !(28 <= d < 30) && !(360 <= d < 365)
    ensures ClassifyElapsedFixed(diffMs) == ClassifyElapsed(diffMs)
  {
    NestedFloors(diffMs);
  }

  // ---------------------------------------------------------------------
  // File size
  // ---------------------------------------------------------------------

  const Units: seq<string> := ["B", "KB", "MB", "GB", "TB"]

  function Pow1024(n: nat): (p: real)
    ensures p >= 1.0
  {
    if n == 0 then 1.0 else 1024.0 * Pow1024(n - 1)
  }

  /**
   * `formatFileSize`'s loop: divide by 1024 while the size is at least 1024
   * and a larger unit remains. Returns the scaled size and the unit name;
   * the one-decimal rendering is not modelled.
   */
  method FormatFileSize(bytes: real) returns (size: real, unitIndex: nat, unit: string)
    ensures unitIndex < |Units| && unit == Units[unitIndex]
    ensures size * Pow1024(unitIndex) == bytes
    ensures unitIndex < |Units| - 1 ==> size < 1024.0
    ensures unitIndex > 0 ==> size >= 1.0
    ensures unitIndex == 0 ==> size == bytes
  {
    size := bytes;
    unitIndex := 0;
    while size >= 1024.0 && unitIndex < |Units| - 1
      invariant unitIndex < |Units|
      invariant size * Pow1024(unitIndex) == bytes
      invariant unitIndex > 0 ==> size >= 1.0
      invariant unitIndex == 0 ==> size == bytes
      decreases |Units| - unitIndex
    {
      size := size / 1024.0;
      unitIndex := unitIndex + 1;
    }
    unit := Units[unitIndex];
  }

  // ---------------------------------------------------------------------
  // Capitalisation
  // ---------------------------------------------------------------------

  /** `capitalize`: the first character upper-cased (ASCII letters only), the rest unchanged. */
  function Capitalize(text: string): (r: string)
    ensures |r| == |text|
    ensures text != [] ==> r[0] == ToUpperAscii(text[0]) && r[1..] == text[1..]
  {
    if text == [] then [] else [ToUpperAscii(text[0])] + text[1..]
  }

  lemma CapitalizeIdempotent(text: string)
    ensures Capitalize(Capitalize(text)) == Capitalize(text)
    ensures Capitalize("") == ""
  {
  }

  /** `array.join(sep)` for a one-character separator. */
  function Join(words: seq<string>, sep: char): string {
    if words == [] then []
    else if |words| == 1 then words[0]
    else words[0] + [sep] + Join(words[1..], sep)
  }

  function CapitalizeAll(words: seq<string>): (r: seq<string>)
    ensures |r| == |words| && forall i :: 0 <= i < |words| ==> r[i] == Capitalize(words[i])
  {
    if words == [] then [] else [Capitalize(words[0])] + CapitalizeAll(words[1..])
  }

  /** `snakeToTitle`: split at `_`, capitalise each word, join with spaces. */
  function SnakeToTitle(text: string): (r: string)
    ensures '_' !in text ==> r == Capitalize(text)
  {
    assert '_' !in text ==> Split(text, '_') == [text] && CapitalizeAll([text]) == [Capitalize(text)];
    Join(CapitalizeAll(Split(text, '_')), ' ')
  }

  /** Every character of a capitalised word is the original or its upper-case form. */
  lemma CapitalizeChars(word: string)
    ensures forall i :: 0 <= i < |word| ==>
              Capitalize(word)[i] == word[i] || Capitalize(word)[i] == ToUpperAscii(word[i])
    ensures '_' !in word ==> '_' !in Capitalize(word)
  {
    var c := Capitalize(word);
    forall i | 0 <= i < |word|
      ensures c[i] == word[i] || c[i] == ToUpperAscii(word[i])
      ensures word[i] != '_' ==> c[i] != '_'
    {
      if i > 0 {
        assert c[i] == c[1..][i - 1] == word[1..][i - 1] == word[i];
      }
    }
  }

  /** A text with an `_` renders as its first word, a space, then the title of the rest. */
  lemma SnakeToTitleFront(text: string, k: nat)
    requires '_' in text && k == IndexOf(text, '_')
    ensures SnakeToTitle(text) == Capitalize(text[..k]) + [' '] + SnakeToTitle(text[k + 1..])
  {
    var field, rest := text[..k], text[k + 1..];
    assert text == field + ['_'] + rest;
    SplitFront(field, '_', rest);
    var tail := Split(rest, '_');
    assert Split(text, '_') == [field] + tail;
    assert CapitalizeAll([field] + tail) == [Capitalize(field)] + CapitalizeAll(tail);
  }

  /**
   * The title has the text's length; each `_` became a space and every other
   * character is kept or upper-cased, so no `_` is left.
   */
  lemma {:induction false} SnakeToTitleShape(text: string)
    ensures var r := SnakeToTitle(text);
            && |r| == |text|
            && (forall i :: 0 <= i < |text| && text[i] == '_' ==> r[i] == ' ')
            && (forall i :: 0 <= i < |text| && text[i] != '_' ==> r[i] == text[i] || r[i] == ToUpperAscii(text[i]))
            && '_' !in r
    decreases |text|
  {
    var r := SnakeToTitle(text);
    if '_' !in text {
      assert Split(text, '_') == [text];
      assert CapitalizeAll([text]) == [Capitalize(text)];
      assert r == Capitalize(text);
      CapitalizeChars(text);
    } else {
      var k := IndexOf(text, '_');
      var field, rest := text[..k], text[k + 1..];
      SnakeToTitleFront(text, k);
      SnakeToTitleShape(rest);
      CapitalizeChars(field);
      var c := Capitalize(field);
      var t := SnakeToTitle(rest);
      assert r == c + [' '] + t;
      forall i | 0 <= i < |text|
        ensures text[i] == '_' ==> r[i] == ' '
        ensures text[i] != '_' ==> r[i] == text[i] || r[i] == ToUpperAscii(text[i])
      {
        if i < k {
          assert r[i] == c[i] && text[i] == field[i];
        } else if i > k {
          assert r[i] == t[i - k - 1] && text[i] == rest[i - k - 1];
        }
      }
      assert '_' !in r by {
        assert '_' !in c && '_' !in t;
      }
    }
  }
}
