/** String helpers shared by the model: decimal digits, prefixes, joining and searching. */
module Text {

  import opened Wrappers

  predicate IsDigit(c: char) {
    '0' <= c <= '9'
  }

  predicate AllDigits(s: string) {
    forall i :: 0 <= i < |s| ==> IsDigit(s[i])
  }

  function DigitValue(c: char): (d: nat)
    requires IsDigit(c)
    ensures d < 10
  {
    c as int - '0' as int
  }

  function DigitChar(d: nat): (c: char)
    requires d < 10
    ensures IsDigit(c) && DigitValue(c) == d
  {
    ('0' as int + d) as char
  }

  /** The value of a string of decimal digits, most significant digit first. */
  function DigitsValue(s: string): nat
    requires AllDigits(s)
  {
    if s == [] then 0 else DigitsValue(s[..|s| - 1]) * 10 + DigitValue(s[|s| - 1])
  }

  function Pow10(w: nat): (p: nat)
    ensures p >= 1
  {
    if w == 0 then 1 else 10 * Pow10(w - 1)
  }

  /**
   * Go's appendInt(b, n, width) for a non-negative n: the decimal digits of n,
   * padded with leading zeros to at least `width` characters.
   */
  function Padded(n: nat, width: nat): (s: string)
    ensures AllDigits(s) && |s| >= 1 && |s| >= width
    decreases n + width
  {
    if n < 10 && width <= 1 then [DigitChar(n)]
    else Padded(n / 10, if width > 0 then width - 1 else 0) + [DigitChar(n % 10)]
  }

  /** Go's %d verb on an int. */
  function Decimal(i: int): (s: string)
    ensures |s| >= 1
    ensures i >= 0 ==> AllDigits(s)
    ensures i < 0 ==> s[0] == '-' && AllDigits(s[1..])
  {
    if i < 0 then "-" + Padded(-i, 1) else Padded(i, 1)
  }

  /** Signed decimal text back to its value: an optional '-' and digits, anything else 0 (gjson's parseInt). */
  function ParseInt(s: string): int {
    if |s| > 0 && s[0] == '-' then (if AllDigits(s[1..]) then 0 - DigitsValue(s[1..]) as int else 0)
    else if AllDigits(s) then DigitsValue(s)
    else 0
  }

  /** A digit string parses to a non-negative number; a negative one needs a '-' and a digit after it. */
  lemma ParseIntSign(s: string)
    ensures AllDigits(s) ==> ParseInt(s) >= 0
    ensures ParseInt(s) < 0 ==> |s| > 1 && s[0] == '-'
  {
  }

  /** Parsing reads back what %d wrote, so %d never maps two integers to one text. */
  lemma DecimalRoundTrip(i: int)
    ensures ParseInt(Decimal(i)) == i
  {
    var d := Decimal(i);
    if i < 0 {
      PaddedValue(-i, 1);
      assert d[1..] == Padded(-i, 1);
    } else {
      PaddedValue(i, 1);
    }
  }

  lemma {:induction false} PaddedValue(n: nat, width: nat)
    ensures DigitsValue(Padded(n, width)) == n
    decreases n + width
  {
    if n < 10 && width <= 1 {
    } else {
      var w' := if width > 0 then width - 1 else 0;
      var p := Padded(n / 10, w');
      PaddedValue(n / 10, w');
      assert Padded(n, width)[..|Padded(n, width)| - 1] == p;
    }
  }

  lemma {:induction false} PaddedLength(n: nat, width: nat)
    requires width >= 1 && n < Pow10(width)
    ensures |Padded(n, width)| == width
    decreases width
  {
    if n < 10 && width <= 1 {
    } else {
      PaddedLength(n / 10, width - 1);
    }
  }

  /** A digit string of length w >= 1 is the padded decimal form of its own value. */
  lemma {:induction false} PaddedOfValue(s: string)
    requires |s| >= 1 && AllDigits(s)
    ensures DigitsValue(s) < Pow10(|s|)
    ensures Padded(DigitsValue(s), |s|) == s
    decreases |s|
  {
    var n := DigitsValue(s);
    var last := s[|s| - 1];
    if |s| == 1 {
      assert s == [last];
      assert DigitsValue(s[..0]) == 0;
      assert DigitChar(DigitValue(last)) == last;
    } else {
      var init := s[..|s| - 1];
      PaddedOfValue(init);
      assert n / 10 == DigitsValue(init) && n % 10 == DigitValue(last);
      assert DigitChar(DigitValue(last)) == last;
      assert s == init + [last];
    }
  }

  predicate HasPrefix(s: string, prefix: string) {
    |prefix| <= |s| && s[..|prefix|] == prefix
  }

  /** Go's strings.Join. */
  function Join(parts: seq<string>, sep: string): string {
    if |parts| == 0 then ""
    else if |parts| == 1 then parts[0]
    else parts[0] + sep + Join(parts[1..], sep)
  }

  /** The position of the first occurrence of c in s, if any. */
  function IndexOf(s: string, c: char): (r: Option<nat>)
    ensures r.Some? ==> r.value < |s| && s[r.value] == c && forall j :: 0 <= j < r.value ==> s[j] != c
    ensures r.None? ==> forall j :: 0 <= j < |s| ==> s[j] != c
  {
    if |s| == 0 then None
    else if s[0] == c then Some(0)
    else match IndexOf(s[1..], c)
      case None => None
      case Some(k) => Some(k + 1)
  }

  /** The linear scan of `for _, x := range xs { if x == target { return true } }`. */
  method Contains(xs: seq<string>, target: string) returns (found: bool)
    ensures found <==> target in xs
  {
    var i := 0;
    while i < |xs|
      invariant 0 <= i <= |xs|
      invariant target !in xs[..i]
    {
      if xs[i] == target {
        return true;
      }
      i := i + 1;
    }
    assert xs[..i] == xs;
    return false;
  }
}
