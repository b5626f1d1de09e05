/**
 * The two regular expressions of the record validators, written out as
 * recognisers: the Korean mobile-phone pattern `^01[0-9]-?\d{3,4}-?\d{4}$`
 * shared by participants, leaders and administrators, and the registration
 * month pattern `^\d{4}-\d{2}$`.
 */
module Patterns {
  import opened Wrappers
  import opened Text

  /** The pieces a matching phone number is made of: `01`, a carrier digit, an optional dash,
      3 or 4 digits, an optional dash and 4 digits. */
  datatype PhoneParts = PhoneParts(carrier: char, dash1: bool, middle: string, dash2: bool, last: string)

  predicate PartsValid(p: PhoneParts) {
    && IsDigit(p.carrier)
    && (|p.middle| == 3 || |p.middle| == 4) && AllDigits(p.middle)
    && |p.last| == 4 && AllDigits(p.last)
  }

  function Dash(present: bool): string { if present then "-" else "" }

  /** The phone number written from its pieces: the language the regular expression denotes. */
  function RenderPhone(p: PhoneParts): string {
    ("01" + [p.carrier] + Dash(p.dash1)) + (p.middle + Dash(p.dash2) + p.last)
  }

  /** Matches what follows the optional first dash: 3 or 4 digits, an optional dash, 4 digits.
      The last four characters are always the final group, so a second dash can only sit just
      before them. */
  function MatchTail(t: string): (r: Option<(string, bool, string)>)
    ensures r.Some? ==> var (middle, dash2, last) := r.value;
      && (|middle| == 3 || |middle| == 4) && AllDigits(middle)
      && |last| == 4 && AllDigits(last)
      && t == middle + Dash(dash2) + last
  {
    var n := |t|;
    if n < 7 || n > 9 then None
    else if n >= 8 && t[n - 5] == '-' then
      if AllDigits(t[..n - 5]) && AllDigits(t[n - 4..]) then
        assert t == t[..n - 5] + Dash(true) + t[n - 4..];
        Some((t[..n - 5], true, t[n - 4..]))
      else None
    else if n <= 8 && AllDigits(t) then
      assert t == t[..n - 4] + Dash(false) + t[n - 4..];
      Some((t[..n - 4], false, t[n - 4..]))
    else None
  }

  /** Matches a phone number left to right and returns the pieces it was made of. */
  function MatchPhone(s: string): (r: Option<PhoneParts>)
    ensures r.Some? ==> PartsValid(r.value) && RenderPhone(r.value) == s
  {
    if |s| < 3 || s[0] != '0' || s[1] != '1' || !IsDigit(s[2]) then None
    else
      var dash1 := |s| > 3 && s[3] == '-';
      var k := if dash1 then 4 else 3;
      var t := s[k..];
      assert s[..k] == "01" + [s[2]] + Dash(dash1);
      assert s == s[..k] + t;
      match MatchTail(t)
      case None => None
      case Some((middle, dash2, last)) => Some(PhoneParts(s[2], dash1, middle, dash2, last))
  }

  /** `phoneRegex.test(s)`. A match has 10 to 13 characters and starts with `01` and a digit;
      `PhoneLanguage` shows the matches are exactly the strings written from valid pieces. */
  predicate IsPhone(s: string)
    ensures IsPhone(s) ==> 10 <= |s| <= 13 && s[0] == '0' && s[1] == '1' && IsDigit(s[2])
  {
    MatchPhone(s).Some?
  }

  /** The recogniser accepts a string exactly when some valid pieces render to it. */
  lemma PhoneLanguage(s: string)
    ensures IsPhone(s) <==> exists p :: PartsValid(p) && RenderPhone(p) == s
  {
    if p :| PartsValid(p) && RenderPhone(p) == s {
      PhoneRoundTrip(p);
    }
  }

  lemma TailRoundTrip(middle: string, dash2: bool, last: string)
    requires (|middle| == 3 || |middle| == 4) && AllDigits(middle)
    requires |last| == 4 && AllDigits(last)
    ensures MatchTail(middle + Dash(dash2) + last) == Some((middle, dash2, last))
  {
    var t := middle + Dash(dash2) + last;
    if dash2 {
      assert t[|middle|] == '-';
      assert t[..|middle|] == middle && t[|middle| + 1..] == last;
      assert !AllDigits(t);
    } else {
      assert t == middle + last;
      assert t[..|middle|] == middle && t[|middle|..] == last;
    }
  }

  /** Every string built from valid pieces is accepted, and matching gives those pieces back:
      the recogniser accepts exactly the language of the regular expression, and reads it unambiguously. */
  lemma PhoneRoundTrip(p: PhoneParts)
    requires PartsValid(p)
    ensures MatchPhone(RenderPhone(p)) == Some(p)
  {
    var s := RenderPhone(p);
    var t := p.middle + Dash(p.dash2) + p.last;
    assert s == "01" + [p.carrier] + Dash(p.dash1) + t;
    assert s[0] == '0' && s[1] == '1' && s[2] == p.carrier;
    if p.dash1 {
      assert s[3] == '-' && s[4..] == t;
    } else {
      assert s[3..] == t;
      assert s[3] == p.middle[0];
    }
    TailRoundTrip(p.middle, p.dash2, p.last);
  }

  /** The dashed sample form the validator's comment names is accepted. */
  lemma PhoneAcceptsDashed()
    ensures IsPhone("010-1234-5678")
  {
    var a := PhoneParts('0', true, "1234", true, "5678");
    assert RenderPhone(a) == "010-1234-5678";
    PhoneRoundTrip(a);
  }

  /** The undashed sample form is accepted, and so is a three-digit middle group. */
  lemma PhoneAcceptsCompact()
    ensures IsPhone("01012345678") && IsPhone("0111234567")
  {
    var b := PhoneParts('0', false, "1234", false, "5678");
    var c := PhoneParts('1', false, "123", false, "4567");
    assert RenderPhone(b) == "01012345678";
    assert RenderPhone(c) == "0111234567";
    PhoneRoundTrip(b);
    PhoneRoundTrip(c);
  }

  /** Letters, a wrong prefix or a missing final digit are rejected. */
  lemma PhoneRejectedExamples()
    ensures !IsPhone("invalid-phone") && !IsPhone("020-1234-5678")
    ensures !IsPhone("010-1234-567")
  {
    var t := "010-1234-567"[4..];
    assert t == "1234-567";
    assert !IsDigit(t[4]) && t[3] != '-';
  }

  // ---------------------------------------------------------------------------
  // Registration months

  /** `/^\d{4}-\d{2}$/.test(s)`: seven characters, a dash at index 4 and a digit everywhere else.
      `YearMonthLanguage` shows these are exactly a four-digit and a two-digit number joined by a dash. */
  predicate IsYearMonth(s: string)
    ensures IsYearMonth(s) <==> |s| == 7 && s[4] == '-' && forall i :: 0 <= i < |s| && i != 4 ==> IsDigit(s[i])
  {
    assert |s| == 7 ==> forall i :: 5 <= i < 7 ==> s[i] == s[5..][i - 5];
    |s| == 7 && AllDigits(s[..4]) && s[4] == '-' && AllDigits(s[5..])
  }

  /** The accepted months are exactly the four-digit and two-digit numbers joined by a dash. */
  lemma YearMonthLanguage(s: string)
    ensures IsYearMonth(s) <==>
      exists year: nat, month: nat :: year < 10000 && month < 100 && s == Digits(year, 4) + "-" + Digits(month, 2)
  {
    if |s| == 7 && AllDigits(s[..4]) && s[4] == '-' && AllDigits(s[5..]) {
      ValueDigits(s[..4]);
      ValueDigits(s[5..]);
      assert s == Digits(Value(s[..4]), 4) + "-" + Digits(Value(s[5..]), 2);
    }
    if year: nat, month: nat :| year < 10000 && month < 100 && s == Digits(year, 4) + "-" + Digits(month, 2) {
      assert s[..4] == Digits(year, 4) && s[5..] == Digits(month, 2);
    }
  }

  function DigitChar(d: nat): (c: char)
    requires d < 10
    ensures IsDigit(c)
  {
    ('0' as int + d) as char
  }

  function DigitValue(c: char): (d: nat)
    requires IsDigit(c)
    ensures d < 10 && DigitChar(d) == c
  {
    c as int - '0' as int
  }

  function Digits(n: nat, width: nat): (s: string)
    ensures |s| == width && AllDigits(s)
  {
    if width == 0 then "" else Digits(n / 10, width - 1) + [DigitChar(n % 10)]
  }

  function Value(s: string): nat
    requires AllDigits(s)
  {
    if s == [] then 0 else Value(s[..|s| - 1]) * 10 + DigitValue(s[|s| - 1])
  }

  function Pow10(k: nat): (p: nat)
    ensures p > 0
  {
    if k == 0 then 1 else 10 * Pow10(k - 1)
  }

  lemma {:induction false} DigitsValue(n: nat, width: nat)
    requires n < Pow10(width)
    ensures Value(Digits(n, width)) == n
  {
    if width > 0 {
      var s := Digits(n, width);
      assert s[..|s| - 1] == Digits(n / 10, width - 1);
      DigitsValue(n / 10, width - 1);
    }
  }

  lemma {:induction false} ValueDigits(s: string)
    requires AllDigits(s)
    ensures Value(s) < Pow10(|s|) && Digits(Value(s), |s|) == s
  {
    if s != [] {
      var init := s[..|s| - 1];
      ValueDigits(init);
      assert s == init + [s[|s| - 1]];
    }
  }

  /** A year and a month written in the stored `YYYY-MM` form. */
  function FormatYearMonth(year: nat, month: nat): (s: string)
    requires year < 10000 && month < 100
    ensures IsYearMonth(s)
  {
    var s := Digits(year, 4) + "-" + Digits(month, 2);
    assert s[..4] == Digits(year, 4) && s[5..] == Digits(month, 2);
    s
  }

  /** The year and month a well-formed registration month denotes. */
  function ReadYearMonth(s: string): (ym: (nat, nat))
    requires IsYearMonth(s)
    ensures ym.0 < 10000 && ym.1 < 100
  {
    ValueDigits(s[..4]);
    ValueDigits(s[5..]);
    (Value(s[..4]), Value(s[5..]))
  }

  /** Accepted strings are exactly the formatted ones, and reading and formatting are mutually inverse. */
  lemma YearMonthRoundTrip(s: string, year: nat, month: nat)
    requires year < 10000 && month < 100
    ensures IsYearMonth(s) ==> FormatYearMonth(ReadYearMonth(s).0, ReadYearMonth(s).1) == s
    ensures ReadYearMonth(FormatYearMonth(year, month)) == (year, month)
  {
    if IsYearMonth(s) {
      ValueDigits(s[..4]);
      ValueDigits(s[5..]);
      assert s == s[..4] + "-" + s[5..];
    }
    var f := FormatYearMonth(year, month);
    assert f[..4] == Digits(year, 4) && f[5..] == Digits(month, 2);
    DigitsValue(year, 4);
    DigitsValue(month, 2);
  }

  /** The month is not range-checked: month 13 and month 00 are accepted; a one-digit month is not. */
  lemma YearMonthExamples()
    ensures IsYearMonth("2024-01") && IsYearMonth("2024-13") && IsYearMonth("2024-00")
    ensures !IsYearMonth("2024-1") && !IsYearMonth("2512") && !IsYearMonth("2024/01")
  {
    assert AllDigits("2024-13"[..4]) && AllDigits("2024-13"[5..]);
    assert AllDigits("2024-00"[5..]) && AllDigits("2024-01"[5..]);
  }
}
