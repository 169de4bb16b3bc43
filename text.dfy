/**
 * String helpers shared by the client and the server models: decimal
 * rendering of numbers (JavaScript template literals, Python strftime) and
 * the whitespace trimming of JavaScript's String.prototype.trim.
 */
module Text {

  predicate IsDigit(c: char) {
    '0' <= c <= '9'
  }

  /** The decimal digit character for d. */
  function Digit(d: nat): (c: char)
    requires d < 10
    ensures IsDigit(c)
  {
    (('0' as int) + d) as char
  }

  predicate AllDigits(s: string) {
    forall k :: 0 <= k < |s| ==> IsDigit(s[k])
  }

  function Pow10(w: nat): (p: nat)
    ensures p >= 1
  {
    if w == 0 then 1 else 10 * Pow10(w - 1)
  }

  /** The number a string of decimal digits denotes, most significant digit first. */
  function DigitsValue(s: string): (v: nat)
    requires AllDigits(s)
    ensures v < Pow10(|s|)
    decreases |s|
  {
    if s == [] then 0
    else DigitsValue(s[..|s| - 1]) * 10 + ((s[|s| - 1] as int) - ('0' as int))
  }

  /** Appending a digit shifts the value left by one decimal place. */
  lemma DigitsValueSnoc(s: string, d: nat)
    requires AllDigits(s) && d < 10
    ensures AllDigits(s + [Digit(d)]) && DigitsValue(s + [Digit(d)]) == DigitsValue(s) * 10 + d
  {
    assert (s + [Digit(d)])[..|s|] == s;
  }

  /** Decimal rendering of n without leading zeros, as `${n}` gives it. */
  function NatToString(n: nat): (s: string)
    ensures |s| >= 1 && AllDigits(s)
    ensures n < 10 <==> |s| == 1
    decreases n
  {
    if n < 10 then [Digit(n)] else NatToString(n / 10) + [Digit(n % 10)]
  }

  /** The rendering denotes n and has no leading zero. */
  lemma {:induction false} NatToStringDenotes(n: nat)
    ensures DigitsValue(NatToString(n)) == n
    ensures |NatToString(n)| > 1 ==> NatToString(n)[0] != '0'
    decreases n
  {
    if n >= 10 {
      NatToStringDenotes(n / 10);
      DigitsValueSnoc(NatToString(n / 10), n % 10);
    }
  }

  /** Euclidean division splits n modulo 10 * p into its last digit and the rest. */
  lemma ModTenTimes(n: nat, p: nat)
    requires p >= 1
    ensures (n / 10) % p * 10 + n % 10 == n % (10 * p)
  {
    var q, r := n / 10, n % 10;
    var a, b := q / p, q % p;
    assert n == 10 * q + r;
    assert q == p * a + b;
    assert n == (10 * p) * a + (10 * b + r);
    assert 0 <= 10 * b + r < 10 * p;
    ModUnique(n, 10 * p, a, 10 * b + r);
  }

  lemma ModUnique(n: int, m: int, a: int, x: int)
    requires m >= 1 && n == m * a + x && 0 <= x < m
    ensures n % m == x
  {
    var a', x' := n / m, n % m;
    var d := a' - a;
    assert m * a' == m * a + m * d;
    assert m * d == x - x';
  }

  /** The last `width` decimal digits of n, zero-padded on the left. */
  function PadDigits(n: nat, width: nat): (s: string)
    ensures |s| == width && AllDigits(s)
    decreases width
  {
    if width == 0 then [] else PadDigits(n / 10, width - 1) + [Digit(n % 10)]
  }

  /** The padded digits denote n modulo 10^width. */
  lemma {:induction false} PadDigitsDenotes(n: nat, width: nat)
    ensures DigitsValue(PadDigits(n, width)) == n % Pow10(width)
    decreases width
  {
    if width > 0 {
      var p, q, r := Pow10(width - 1), n / 10, n % 10;
      var head := PadDigits(q, width - 1);
      PadDigitsDenotes(q, width - 1);
      DigitsValueSnoc(head, r);
      ModTenTimes(n, p);
      assert PadDigits(n, width) == head + [Digit(r)];
      assert DigitsValue(head) * 10 + r == n % (10 * p);
    }
  }

  /** A number of at most width digits reads back from its padding unchanged. */
  lemma PadDigitsExact(n: nat, width: nat)
    requires n < Pow10(width)
    ensures DigitsValue(PadDigits(n, width)) == n
  {
    PadDigitsDenotes(n, width);
    ModUnique(n, Pow10(width), 0, n);
  }

  /**
   * The characters String.prototype.trim removes: WhiteSpace (tab,
   * vertical tab, form feed, zero-width no-break space and every Unicode
   * space separator) and LineTerminator (line feed, carriage return, line
   * and paragraph separators).
   */
  predicate IsJsWhitespace(c: char) {
    || c == '\t' || c == '\n' || c == '\U{000B}' || c == '\U{000C}' || c == '\r'
    || c == ' ' || c == '\U{00A0}' || c == '\U{1680}'
    || ('\U{2000}' <= c <= '\U{200A}')
    || c == '\U{2028}' || c == '\U{2029}' || c == '\U{202F}' || c == '\U{205F}'
    || c == '\U{3000}' || c == '\U{FEFF}'
  }

  predicate AllWhitespace(s: string) {
    forall k :: 0 <= k < |s| ==> IsJsWhitespace(s[k])
  }

  /** s without its leading whitespace. */
  function TrimStart(s: string): (r: string)
    ensures |r| <= |s| && r == s[|s| - |r|..]
    ensures AllWhitespace(s[..|s| - |r|])
    ensures r != [] ==> !IsJsWhitespace(r[0])
  {
    if s != [] && IsJsWhitespace(s[0]) then TrimStart(s[1..]) else s
  }

  /** s without its trailing whitespace. */
  function TrimEnd(s: string): (r: string)
    ensures |r| <= |s| && r == s[..|r|]
    ensures AllWhitespace(s[|r|..])
    ensures r != [] ==> !IsJsWhitespace(r[|r| - 1])
  {
    if s != [] && IsJsWhitespace(s[|s| - 1]) then TrimEnd(s[..|s| - 1]) else s
  }

  /** String.prototype.trim: s without whitespace at either end. */
  function Trim(s: string): (r: string)
    ensures |r| <= |s|
    ensures r != [] ==> !IsJsWhitespace(r[0]) && !IsJsWhitespace(r[|r| - 1])
  {
    TrimEnd(TrimStart(s))
  }

  /**
   * The trimmed text r is the slice of s that starts where t, s without its
   * leading whitespace, starts; everything cut off at either end is
   * whitespace. TrimStart(s) and Trim(s) come in as t and r so that the
   * proof does not unfold them again, which keeps it cheap for the solver.
   */
  lemma TrimIsSlice(s: string, t: string, r: string)
    requires t == TrimStart(s) && r == Trim(s)
    ensures var i := |s| - |t|;
            && i + |r| <= |s| && r == s[i..i + |r|]
            && AllWhitespace(s[..i]) && AllWhitespace(s[i + |r|..])
  {
    PrefixOfSuffix(s, t, r);
  }

  /** A prefix r of a suffix t of s is the slice of s where t begins. */
  lemma PrefixOfSuffix<T>(s: seq<T>, t: seq<T>, r: seq<T>)
    requires |t| <= |s| && t == s[|s| - |t|..]
    requires |r| <= |t| && r == t[..|r|]
    ensures r == s[|s| - |t|..|s| - |t| + |r|]
    ensures t[|r|..] == s[|s| - |t| + |r|..]
  {
  }

  /** Trimming gives the empty string exactly when s is all whitespace. */
  lemma TrimEmptyIff(s: string)
    ensures Trim(s) == [] <==> AllWhitespace(s)
  {
    var r := Trim(s);
    var i := |s| - |TrimStart(s)|;
    TrimIsSlice(s, TrimStart(s), r);
    if r == [] {
      assert i == |s|;
      forall k | 0 <= k < |s| ensures IsJsWhitespace(s[k]) {
        assert s[k] == s[..i][k];
      }
    } else {
      assert r[0] == s[i];
    }
  }

  /** Text that neither starts nor ends with whitespace is left as it is. */
  lemma TrimKeepsTrimmed(t: string)
    requires t != [] ==> !IsJsWhitespace(t[0]) && !IsJsWhitespace(t[|t| - 1])
    ensures Trim(t) == t
  {
    assert TrimStart(t) == t;
    assert TrimEnd(t) == t;
  }

  /** Trimming twice is trimming once. */
  lemma TrimIdempotent(s: string)
    ensures Trim(Trim(s)) == Trim(s)
  {
    TrimKeepsTrimmed(Trim(s));
  }
}
