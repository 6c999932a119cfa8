/**
 * Decimal rendering of a non-negative id (the `%d` verb the handlers use to
 * build a response path), reading a digit string back, and taking the last
 * '/'-separated segment of a path, as a client does to recover the id.
 */
module Format {
  import opened Wrappers

  predicate IsDigit(c: char)
  {
    '0' <= c <= '9'
  }

  predicate AllDigits(s: string)
  {
    forall i :: 0 <= i < |s| ==> IsDigit(s[i])
  }

  /** A digit string as `%d` writes it: non-empty, and no leading zero unless it is "0". */
  predicate Canonical(s: string)
  {
    |s| > 0 && AllDigits(s) && (s[0] == '0' ==> |s| == 1)
  }

  function DigitChar(d: nat): (c: char)
    requires d < 10
    ensures IsDigit(c) && DigitValue(c) == d
  {
    (48 + d) as char
  }

  function DigitValue(c: char): nat
    requires IsDigit(c)
  {
    c as nat - 48
  }

  /** `fmt.Sprintf("%d", n)` for a non-negative n: the canonical decimal digits of n. */
  function Decimal(n: nat): (s: string)
    ensures Canonical(s)
    ensures s[0] == '0' <==> n == 0
    decreases n
  {
    if n < 10 then [DigitChar(n)] else Decimal(n / 10) + [DigitChar(n % 10)]
  }

  /** The number a digit string denotes, most significant digit first. */
  function Value(s: string): nat
    requires AllDigits(s)
    decreases |s|
  {
    if s == [] then 0 else Value(s[..|s| - 1]) * 10 + DigitValue(s[|s| - 1])
  }

  /**
   * `strconv.Atoi` restricted to digit strings: reads a non-empty digit string
   * as a number and refuses anything else, including the leading sign Atoi
   * would accept. On a canonical string it inverts Decimal.
   */
  function ParseDigits(s: string): (r: Option<nat>)
    ensures r.Some? <==> |s| > 0 && AllDigits(s)
    ensures Canonical(s) ==> r.Some? && Decimal(r.value) == s
  {
    if |s| > 0 && AllDigits(s) then
      if Canonical(s) then DecimalOfValue(s); Some(Value(s)) else Some(Value(s))
    else None
  }

  /** Reading back what Decimal wrote gives the number again. */
  lemma {:induction false} ValueOfDecimal(n: nat)
    ensures Value(Decimal(n)) == n
    decreases n
  {
    if n >= 10 {
      var d := Decimal(n);
      assert d[..|d| - 1] == Decimal(n / 10);
      ValueOfDecimal(n / 10);
    }
  }

  /** Round trip: ParseDigits(Decimal(n)) == Some(n). */
  lemma DecimalRoundTrip(n: nat)
    ensures ParseDigits(Decimal(n)) == Some(n)
  {
    ValueOfDecimal(n);
  }

  /** A digit string with a non-zero leading digit denotes a positive number. */
  lemma {:induction false} LeadingDigitPositive(s: string)
    requires |s| > 0 && AllDigits(s) && s[0] != '0'
    ensures Value(s) > 0
    decreases |s|
  {
    if |s| > 1 {
      LeadingDigitPositive(s[..|s| - 1]);
    }
  }

  /** The other direction: rendering the value of a canonical digit string gives the string back. */
  lemma {:induction false} DecimalOfValue(s: string)
    requires Canonical(s)
    ensures Decimal(Value(s)) == s
    decreases |s|
  {
    if |s| > 1 {
      var p := s[..|s| - 1];
      assert Canonical(p);
      LeadingDigitPositive(p);
      DecimalOfValue(p);
      assert s == p + [s[|s| - 1]];
    }
  }

  /** The last '/'-separated segment of a path: what follows its last '/', or all of it when it has none. */
  function LastSegment(path: string): (seg: string)
    ensures |seg| <= |path| && seg == path[|path| - |seg|..]
    ensures forall i :: 0 <= i < |seg| ==> seg[i] != '/'
    ensures |seg| < |path| ==> path[|path| - |seg| - 1] == '/'
    decreases |path|
  {
    if path == [] then []
    else if path[|path| - 1] == '/' then []
    else LastSegment(path[..|path| - 1]) + [path[|path| - 1]]
  }

  /** After a prefix ending in '/', a segment free of '/' is the last segment. */
  lemma {:induction false} LastSegmentAfterSlash(prefix: string, seg: string)
    requires |prefix| > 0 && prefix[|prefix| - 1] == '/'
    requires forall i :: 0 <= i < |seg| ==> seg[i] != '/'
    ensures LastSegment(prefix + seg) == seg
    decreases |seg|
  {
    if seg == [] {
      assert prefix + seg == prefix;
    } else {
      var init := seg[..|seg| - 1];
      assert (prefix + seg)[..|prefix + seg| - 1] == prefix + init;
      LastSegmentAfterSlash(prefix, init);
      assert seg == init + [seg[|seg| - 1]];
    }
  }
}
