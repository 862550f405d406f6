/**
 * FreeIPA's compact timestamps. The server writes datetimes with Go's layout
 * "20060102150405Z" (YYYYMMDDHHMMSS followed by a literal Z), and the client's
 * ParseDateTime turns any parse failure into Go's zero time instead of an error.
 * Times are UTC instants broken down into calendar fields.
 */
module DateTime {

  import opened Wrappers
  import opened Text

  /** The layout string the source passes to time.Parse and time.Format. */
  const IpaDatetimeFormat: string := "20060102150405Z"

  datatype Time = Time(year: int, month: int, day: int, hour: int, minute: int, second: int, nanosecond: int)

  /** Go's time.Time{}: January 1 of year 1, 00:00:00 UTC. */
  const ZeroTime: Time := Time(1, 1, 1, 0, 0, 0, 0)

  predicate IsZero(t: Time) {
    t == ZeroTime
  }

  predicate IsLeap(year: int) {
    year % 4 == 0 && (year % 100 != 0 || year % 400 == 0)
  }

  function DaysIn(month: int, year: int): (d: int)
    requires 1 <= month <= 12
    ensures 28 <= d <= 31
  {
    if month == 2 then (if IsLeap(year) then 29 else 28)
    else if month == 4 || month == 6 || month == 9 || month == 11 then 30
    else 31
  }

  predicate ValidTime(t: Time) {
    && 1 <= t.month <= 12
    && 1 <= t.day <= DaysIn(t.month, t.year)
    && 0 <= t.hour < 24
    && 0 <= t.minute < 60
    && 0 <= t.second < 60
    && 0 <= t.nanosecond < 1000000000
  }

  // ---------------------------------------------------------------------------
  // The parser, following the steps time.Parse takes for this layout.
  // ---------------------------------------------------------------------------

  /**
   * Go's getnum(s, fixed): one or two leading digits; with `fixed`, exactly two.
   * Returns the number and the rest of the input.
   */
  function GetNum(s: string, fixed: bool): Option<(nat, string)> {
    if |s| == 0 || !IsDigit(s[0]) then None
    else if |s| == 1 || !IsDigit(s[1]) then
      (if fixed then None else Some((DigitValue(s[0]), s[1..])))
    else Some((DigitValue(s[0]) * 10 + DigitValue(s[1]), s[2..]))
  }

  /** The length of the run of digits at the start of s. */
  function DigitRun(s: string): (n: nat)
    ensures n <= |s| && AllDigits(s[..n]) && (n < |s| ==> !IsDigit(s[n]))
  {
    if |s| == 0 || !IsDigit(s[0]) then 0
    else
      var k := DigitRun(s[1..]);
      assert s[..k + 1] == [s[0]] + s[1..][..k];
      k + 1
  }

  /**
   * time.Parse's special case after the seconds field: a '.' or ',' followed by
   * a digit starts a fraction that the layout does not mention. All its digits
   * are consumed; at most nine of them are significant (parseNanoseconds).
   * Returns the nanoseconds and the rest of the input.
   */
  function Fraction(v: string): (r: (nat, string))
    ensures r.0 < 1000000000
  {
    if |v| >= 2 && (v[0] == '.' || v[0] == ',') && IsDigit(v[1]) then
      var n := 1 + DigitRun(v[1..]);
      var nbytes := if n > 10 then 10 else n;
      assert v[1..nbytes] == v[1..][..nbytes - 1];
      (Nanoseconds(v[1..nbytes]), v[n..])
    else (0, v)
  }

  /**
   * parseNanoseconds: the value of at most nine fraction digits, multiplied by
   * ten once for each digit short of nine.
   */
  function Nanoseconds(d: string): (ns: nat)
    requires |d| <= 9 && AllDigits(d)
    ensures ns < 1000000000
    decreases 9 - |d|
  {
    if |d| == 9 then
      PaddedOfValue(d);
      Pow10Nine();
      DigitsValue(d)
    else
      assert AllDigits(d + "0") by {
        assert forall i :: 0 <= i < |d| ==> (d + "0")[i] == d[i];
      }
      Nanoseconds(d + "0")
  }

  lemma Pow10Nine()
    ensures Pow10(9) == 1000000000
  {
    assert Pow10(1) == 10;
    assert Pow10(2) == 100;
    assert Pow10(3) == 1000;
    assert Pow10(4) == 10000;
    assert Pow10(5) == 100000;
    assert Pow10(6) == 1000000;
    assert Pow10(7) == 10000000;
    assert Pow10(8) == 100000000;
  }

  /** Walks the layout "20060102150405Z" over s; None on any error. */
  function ParseLayout(s: string): Option<Time>
  {
    // "2006": four digits
    if |s| < 4 || !AllDigits(s[..4]) then None
    else
      var year := DigitsValue(s[..4]);
      // "01": two-digit month
      match GetNum(s[4..], true)
      case None => None
      case Some((month, v)) =>
        if month < 1 || 12 < month then None
        else
          // "02": two-digit day
          match GetNum(v, true)
          case None => None
          case Some((day, v)) =>
            if 31 < day then None
            else
              // "15": hour, one or two digits
              match GetNum(v, false)
              case None => None
              case Some((hour, v)) =>
                if 24 <= hour then None
                else
                  // "04": two-digit minute
                  match GetNum(v, true)
                  case None => None
                  case Some((minute, v)) =>
                    if 60 <= minute then None
                    else
                      // "05": two-digit second, then an optional fraction
                      match GetNum(v, true)
                      case None => None
                      case Some((second, v)) =>
                        if 60 <= second then None
                        else
                          var (ns, v) := Fraction(v);
                          // the literal "Z", then nothing more
                          if v != "Z" then None
                          else if day < 1 || day > DaysIn(month, year) then None
                          else Some(Time(year, month, day, hour, minute, second, ns))
  }

  /** ipa.go's ParseDateTime: the parsed instant, or the zero time on any failure. */
  function ParseDateTime(s: string): Time {
    match ParseLayout(s)
    case Some(t) => t
    case None => ZeroTime
  }

  /** Whatever the layout accepts is a valid time. */
  lemma ParseLayoutValid(s: string)
    ensures ParseLayout(s).Some? ==> ValidTime(ParseLayout(s).value)
  {
  }

  /** ParseDateTime always gives a valid time, and the zero time for text too short for a year. */
  lemma ParseDateTimeValid(s: string)
    ensures ValidTime(ParseDateTime(s))
    ensures |s| < 4 ==> ParseDateTime(s) == ZeroTime
  {
    ParseLayoutValid(s);
  }

  /**
   * Go's Time.Format(IpaDatetimeFormat) for a UTC time. A time.Time always
   * satisfies ValidTime; a negative field, which it cannot hold, is written as 0.
   */
  function FormatDateTime(t: Time): (s: string)
    ensures |s| >= 15 && s[|s| - 1] == 'Z'
  {
    YearText(t.year) + Padded(Clock(t.month), 2) + Padded(Clock(t.day), 2) + Padded(Clock(t.hour), 2)
      + Padded(Clock(t.minute), 2) + Padded(Clock(t.second), 2) + "Z"
  }

  function Clock(n: int): nat {
    if n < 0 then 0 else n
  }

  /** The "2006" element: four digits, zero-padded, with a sign if negative. */
  function YearText(year: int): string {
    if year < 0 then "-" + Padded(-year, 4) else Padded(year, 4)
  }

  // ---------------------------------------------------------------------------
  // A declarative description of the strings ParseDateTime accepts.
  // ---------------------------------------------------------------------------

  /** 14 digits, an optional '.' or ',' with at least one digit, and a final 'Z'. */
  predicate Shaped(s: string) {
    && |s| >= 15
    && AllDigits(s[..14])
    && s[|s| - 1] == 'Z'
    && (|s| == 15 || (|s| >= 17 && (s[14] == '.' || s[14] == ',') && AllDigits(s[15..|s| - 1])))
  }

  /** The nanoseconds that the fraction digits d stand for (at most nine count). */
  function FractionValue(d: string): nat
    requires AllDigits(d)
  {
    var k := if |d| > 9 then 9 else |d|;
    assert AllDigits(d[..k]);
    Nanoseconds(d[..k])
  }

  /** The calendar fields a shaped string spells out. */
  function FieldsOf(s: string): Time
    requires Shaped(s)
  {
    assert AllDigits(s[0..4]) && AllDigits(s[4..6]) && AllDigits(s[6..8]);
    assert AllDigits(s[8..10]) && AllDigits(s[10..12]) && AllDigits(s[12..14]);
    Time(DigitsValue(s[0..4]), DigitsValue(s[4..6]), DigitsValue(s[6..8]),
         DigitsValue(s[8..10]), DigitsValue(s[10..12]), DigitsValue(s[12..14]),
         if |s| == 15 then 0 else FractionValue(s[15..|s| - 1]))
  }

  /** A string ParseDateTime accepts: shaped, and every field in its range. */
  predicate WellFormed(s: string) {
    Shaped(s) && ValidTime(FieldsOf(s))
  }

  // ---------------------------------------------------------------------------
  // ParseDateTime accepts exactly the well-formed strings.
  // ---------------------------------------------------------------------------

  /**
   * ParseDateTime returns the instant a well-formed string spells out, and the
   * zero time for every other string; it never fails.
   */
  lemma ParseDateTimeMeaning(s: string)
    ensures ParseDateTime(s) == if WellFormed(s) then FieldsOf(s) else ZeroTime
    ensures ValidTime(ParseDateTime(s))
  {
    if Shaped(s) {
      ParseShaped(s);
    } else {
      ParseNeedsShape(s);
    }
  }

  lemma TwoDigits(v: string)
    requires |v| >= 2 && IsDigit(v[0]) && IsDigit(v[1])
    ensures AllDigits(v[..2])
    ensures GetNum(v, true) == Some((DigitsValue(v[..2]), v[2..]))
    ensures GetNum(v, false) == Some((DigitsValue(v[..2]), v[2..]))
  {
    assert v[..2][..1] == v[..1];
    assert v[..1][..0] == [];
    assert DigitsValue(v[..1]) == DigitValue(v[0]);
    assert DigitsValue(v[..2]) == DigitValue(v[0]) * 10 + DigitValue(v[1]);
  }

  /** DigitRun(x) is the only k with all digits before k and no digit at k. */
  lemma {:induction false} DigitRunIs(x: string, k: nat)
    requires k <= |x| && AllDigits(x[..k]) && (k < |x| ==> !IsDigit(x[k]))
    ensures DigitRun(x) == k
    decreases k
  {
    if k > 0 {
      assert IsDigit(x[..k][0]);
      assert x[1..][..k - 1] == x[..k][1..];
      DigitRunIs(x[1..], k - 1);
    }
  }

  /** On a shaped string the parser reads exactly the fields FieldsOf names. */
  lemma ParseShaped(s: string)
    requires Shaped(s)
    ensures ParseLayout(s) == if ValidTime(FieldsOf(s)) then Some(FieldsOf(s)) else None
  {
    var t := FieldsOf(s);
    assert forall i :: 0 <= i < 14 ==> IsDigit(s[i]) by {
      forall i | 0 <= i < 14 ensures IsDigit(s[i]) {
        assert s[..14][i] == s[i];
      }
    }
    assert s[..4] == s[0..4];
    TwoDigits(s[4..]);
    assert s[4..][..2] == s[4..6] && s[4..][2..] == s[6..];
    TwoDigits(s[6..]);
    assert s[6..][..2] == s[6..8] && s[6..][2..] == s[8..];
    TwoDigits(s[8..]);
    assert s[8..][..2] == s[8..10] && s[8..][2..] == s[10..];
    TwoDigits(s[10..]);
    assert s[10..][..2] == s[10..12] && s[10..][2..] == s[12..];
    TwoDigits(s[12..]);
    assert s[12..][..2] == s[12..14] && s[12..][2..] == s[14..];
    FractionOfShaped(s);
  }

  /** The fraction step on the tail of a shaped string leaves exactly "Z". */
  lemma FractionOfShaped(s: string)
    requires Shaped(s)
    ensures Fraction(s[14..]) == (FieldsOf(s).nanosecond, "Z")
  {
    var v := s[14..];
    if |s| == 15 {
      assert v == "Z";
    } else {
      var d := s[15..|s| - 1];
      assert v[1] == d[0];
      var x := v[1..];
      assert x[..|d|] == d;
      DigitRunIs(x, |d|);
      var n := 1 + |d|;
      var nbytes := if n > 10 then 10 else n;
      var k := if |d| > 9 then 9 else |d|;
      assert v[1..nbytes] == d[..k];
      assert v[n..] == "Z";
    }
  }

  /** Any string the parser accepts is shaped. */
  lemma ParseNeedsShape(s: string)
    ensures ParseLayout(s).Some? ==> Shaped(s)
  {
    if ParseLayout(s).Some? {
      var v1 := GetNum(s[4..], true).value.1;
      assert v1 == s[6..];
      var v2 := GetNum(v1, true).value.1;
      assert v2 == s[8..];
      var v3 := GetNum(v2, false).value.1;
      // a one-digit hour leaves a non-digit where the minute must start
      assert v3 == s[10..];
      var v4 := GetNum(v3, true).value.1;
      assert v4 == s[12..];
      var v5 := GetNum(v4, true).value.1;
      assert v5 == s[14..];
      assert forall i :: 0 <= i < 14 ==> IsDigit(s[i]) by {
        assert forall i :: 0 <= i < 4 ==> s[..4][i] == s[i];
        assert IsDigit(s[4]) && IsDigit(s[5]) && IsDigit(s[6]) && IsDigit(s[7]);
        assert IsDigit(s[8]) && IsDigit(s[9]) && IsDigit(s[10]) && IsDigit(s[11]);
        assert IsDigit(s[12]) && IsDigit(s[13]);
      }
      assert AllDigits(s[..14]);
      var f := Fraction(v5);
      assert f.1 == "Z";
      if |v5| >= 2 && (v5[0] == '.' || v5[0] == ',') && IsDigit(v5[1]) {
        var n := 1 + DigitRun(v5[1..]);
        assert v5[n..] == "Z";
        assert |s| == 15 + n;
        assert s[15..|s| - 1] == v5[1..][..n - 1];
      } else {
        assert v5 == "Z";
      }
    }
  }

  // ---------------------------------------------------------------------------
  // Round trips between FormatDateTime and ParseDateTime.
  // ---------------------------------------------------------------------------

  /** A string assembled from six digit groups of the layout's widths, and "Z". */
  lemma Assembled(y: string, mo: string, d: string, h: string, mi: string, se: string)
    requires |y| == 4 && |mo| == 2 && |d| == 2 && |h| == 2 && |mi| == 2 && |se| == 2
    requires AllDigits(y) && AllDigits(mo) && AllDigits(d) && AllDigits(h) && AllDigits(mi) && AllDigits(se)
    ensures var s := y + mo + d + h + mi + se + "Z";
      && Shaped(s)
      && s[0..4] == y && s[4..6] == mo && s[6..8] == d
      && s[8..10] == h && s[10..12] == mi && s[12..14] == se
  {
    var a := y + mo + d + h + mi + se;
    var s := a + "Z";
    DigitsConcat(y, mo); DigitsConcat(y + mo, d); DigitsConcat(y + mo + d, h);
    DigitsConcat(y + mo + d + h, mi); DigitsConcat(y + mo + d + h + mi, se);
    assert s[..14] == a;
    assert Shaped(s);
    assert s[0..4] == y && s[4..6] == mo && s[6..8] == d;
    assert s[8..10] == h && s[10..12] == mi && s[12..14] == se;
  }

  lemma DigitsConcat(x: string, y: string)
    requires AllDigits(x) && AllDigits(y)
    ensures AllDigits(x + y)
  {
    assert forall i :: 0 <= i < |x + y| ==> (x + y)[i] == (if i < |x| then x[i] else y[i - |x|]);
  }

  /** Formatting a whole-second time of a four-digit year and parsing it back gives it back. */
  lemma FormatThenParse(t: Time)
    requires ValidTime(t) && 0 <= t.year <= 9999 && t.nanosecond == 0
    ensures ParseDateTime(FormatDateTime(t)) == t
  {
    assert Pow10(2) == 100 && Pow10(4) == 10000;
    PaddedLength(t.year, 4); PaddedLength(t.month, 2); PaddedLength(t.day, 2);
    PaddedLength(t.hour, 2); PaddedLength(t.minute, 2); PaddedLength(t.second, 2);
    PaddedValue(t.year, 4); PaddedValue(t.month, 2); PaddedValue(t.day, 2);
    PaddedValue(t.hour, 2); PaddedValue(t.minute, 2); PaddedValue(t.second, 2);
    Assembled(Padded(t.year, 4), Padded(t.month, 2), Padded(t.day, 2),
              Padded(t.hour, 2), Padded(t.minute, 2), Padded(t.second, 2));
    var s := FormatDateTime(t);
    assert FieldsOf(s) == t;
    ParseDateTimeMeaning(s);
  }

  /** A well-formed fifteen-character string is what formatting its parse produces. */
  lemma ParseThenFormat(s: string)
    requires WellFormed(s) && |s| == 15
    ensures FormatDateTime(ParseDateTime(s)) == s
  {
    ParseDateTimeMeaning(s);
    var y, mo, d, h, mi, se := s[0..4], s[4..6], s[6..8], s[8..10], s[10..12], s[12..14];
    assert s == y + mo + d + h + mi + se + "Z";
    assert AllDigits(y) && AllDigits(mo) && AllDigits(d) by {
      assert y + mo + d == s[..14][..8];
    }
    assert AllDigits(h) && AllDigits(mi) && AllDigits(se) by {
      assert h + mi + se == s[..14][8..];
    }
    PaddedOfValue(y); PaddedOfValue(mo); PaddedOfValue(d);
    PaddedOfValue(h); PaddedOfValue(mi); PaddedOfValue(se);
    Assembled(y, mo, d, h, mi, se);
  }
}
