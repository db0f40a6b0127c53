/**
 * The string operations the scripts use: `trim`, `toLowerCase`,
 * `toUpperCase`, decimal rendering of a timestamp and `slice(-k)`.
 */
module Text {

  /** The code points JavaScript's `String.prototype.trim` removes (WhiteSpace and LineTerminator). */
  predicate IsJsSpace(c: char) {
    || c == '\t' || c == '\n' || c == '\U{000B}' || c == '\U{000C}' || c == '\r' || c == ' '
    || c == '\U{00A0}' || c == '\U{1680}' || ('\U{2000}' <= c <= '\U{200A}')
    || c == '\U{2028}' || c == '\U{2029}' || c == '\U{202F}' || c == '\U{205F}'
    || c == '\U{3000}' || c == '\U{FEFF}'
  }

  predicate AllSpace(s: string) {
    forall k :: 0 <= k < |s| ==> IsJsSpace(s[k])
  }

  /** How many white-space characters `s` starts with. */
  function LeadingSpaces(s: string): (n: nat)
    ensures n <= |s|
    ensures n < |s| ==> !IsJsSpace(s[n])
  {
    if s != [] && IsJsSpace(s[0]) then 1 + LeadingSpaces(s[1..]) else 0
  }

  /** `s` without its leading white space: a suffix of `s` that starts with a non-space. */
  function TrimStart(s: string): (r: string)
    ensures |r| <= |s|
    ensures r == [] || !IsJsSpace(r[0])
  {
    s[LeadingSpaces(s)..]
  }

  /** What `TrimStart` cuts off is white space. */
  lemma {:induction false} TrimStartCutsSpace(s: string)
    ensures AllSpace(s[..|s| - |TrimStart(s)|])
  {
    LeadingSpacesAreSpace(s);
  }

  lemma {:induction false} LeadingSpacesAreSpace(s: string)
    ensures AllSpace(s[..LeadingSpaces(s)])
  {
    if s != [] && IsJsSpace(s[0]) {
      var n := LeadingSpaces(s);
      LeadingSpacesAreSpace(s[1..]);
      forall k | 1 <= k < n
        ensures IsJsSpace(s[..n][k])
      {
        assert s[..n][k] == s[1..][..n - 1][k - 1];
      }
    }
  }

  /** `s` without its trailing white space: a prefix of `s` that ends with a non-space. */
  function TrimEnd(s: string): (r: string)
    ensures |r| <= |s| && r == s[..|r|]
    ensures r == [] || !IsJsSpace(r[|r| - 1])
  {
    if s != [] && IsJsSpace(s[|s| - 1]) then TrimEnd(s[..|s| - 1]) else s
  }

  /** What `TrimEnd` cuts off is white space. */
  lemma {:induction false} TrimEndCutsSpace(s: string)
    ensures AllSpace(s[|TrimEnd(s)|..])
  {
    if s != [] && IsJsSpace(s[|s| - 1]) {
      var m := |TrimEnd(s)|;
      TrimEndCutsSpace(s[..|s| - 1]);
      assert s[m..] == s[..|s| - 1][m..] + [s[|s| - 1]];
    }
  }

  /** JavaScript's `s.trim()`. */
  function Trim(s: string): (r: string)
    ensures |r| <= |s|
    ensures r == [] || (!IsJsSpace(r[0]) && !IsJsSpace(r[|r| - 1]))
  {
    TrimEnd(TrimStart(s))
  }

  /** A trimmed string is the middle of the input; everything cut off is white space. */
  lemma TrimIsInfix(s: string)
    ensures exists i, j :: 0 <= i <= j <= |s| && Trim(s) == s[i..j] && AllSpace(s[..i]) && AllSpace(s[j..])
  {
    var t := TrimStart(s);
    var i := |s| - |t|;
    TrimStartCutsSpace(s);
    assert t == s[i..] && AllSpace(s[..i]);
    var u := TrimEnd(t);
    var j := i + |u|;
    TrimEndCutsSpace(t);
    assert u == t[..|u|] && AllSpace(t[|u|..]);
    assert u == s[i..j];
    assert t[|u|..] == s[j..];
    assert Trim(s) == u;
  }

  /** A field is blank for the scripts (`!value.trim()`) exactly when it is all white space. */
  lemma {:induction false} TrimEmptyIffBlank(s: string)
    ensures Trim(s) == [] <==> AllSpace(s)
  {
    var t := TrimStart(s);
    var n := |s| - |t|;
    TrimStartCutsSpace(s);
    if AllSpace(s) {
      AllSpaceSuffix(s, n);
    }
    if Trim(s) == [] {
      TrimEndCutsSpace(t);
      assert t[|TrimEnd(t)|..] == t;
      AllSpaceJoin(s, n);
    }
  }

  lemma AllSpaceSuffix(s: string, n: nat)
    requires n <= |s| && AllSpace(s)
    ensures AllSpace(s[n..])
  {
    forall k | 0 <= k < |s| - n
      ensures IsJsSpace(s[n..][k])
    {
      assert s[n..][k] == s[n + k];
    }
  }

  lemma AllSpaceJoin(s: string, n: nat)
    requires n <= |s| && AllSpace(s[..n]) && AllSpace(s[n..])
    ensures AllSpace(s)
  {
    forall k | 0 <= k < |s|
      ensures IsJsSpace(s[k])
    {
      if k < n {
        assert s[k] == s[..n][k];
      } else {
        assert s[k] == s[n..][k - n];
      }
    }
  }

  /** Trimming twice is trimming once. */
  lemma TrimIdempotent(s: string)
    ensures Trim(Trim(s)) == Trim(s)
  {
    var r := Trim(s);
    if r != [] {
      assert TrimStart(r) == r;
      assert TrimEnd(r) == r;
    }
  }

  /** Whether `c` lies in the Basic Multilingual Plane, where it takes one UTF-16 code unit. */
  predicate InBmp(c: char) {
    c as int < 0x1_0000
  }

  /** JavaScript's `s.length`: UTF-16 code units, so a character outside the BMP counts twice. */
  function JsLength(s: string): (n: nat)
    ensures |s| <= n <= 2 * |s|
    ensures (forall i :: 0 <= i < |s| ==> InBmp(s[i])) ==> n == |s|
    ensures (exists i :: 0 <= i < |s| && !InBmp(s[i])) ==> n > |s|
  {
    if s == [] then 0 else JsLength(s[..|s| - 1]) + (if InBmp(s[|s| - 1]) then 1 else 2)
  }

  /** The length of a concatenation is the sum of the lengths. */
  lemma {:induction false} JsLengthConcat(a: string, b: string)
    ensures JsLength(a + b) == JsLength(a) + JsLength(b)
    decreases |b|
  {
    if b == [] {
      assert a + b == a;
    } else {
      var b' := b[..|b| - 1];
      assert (a + b)[..|a + b| - 1] == a + b';
      JsLengthConcat(a, b');
    }
  }

  /** JavaScript's lower-case mapping on ASCII and Latin-1 capitals, and on the two capitals `UpperOf` produces outside Latin-1. */
  function LowerChar(c: char): char {
    if 'A' <= c <= 'Z' || ('\U{00C0}' <= c <= '\U{00DE}' && c != '\U{00D7}') then (c as int + 32) as char
    else if c == '\U{0178}' then '\U{00FF}'
    else if c == '\U{039C}' then '\U{03BC}'
    else c
  }

  /**
   * JavaScript's upper-case mapping on ASCII and Latin-1 letters. Three of
   * them have no Latin-1 capital: the sharp s becomes the two letters `SS`,
   * `ÿ` becomes U+0178 and the micro sign becomes the Greek capital mu.
   */
  function UpperOf(c: char): (u: string)
    ensures 1 <= |u| <= 2
    ensures |u| == 2 <==> c == '\U{00DF}'
  {
    if 'a' <= c <= 'z' || ('\U{00E0}' <= c <= '\U{00FE}' && c != '\U{00F7}' && c != '\U{00DF}') then [(c as int - 32) as char]
    else if c == '\U{00DF}' then "SS"
    else if c == '\U{00FF}' then ['\U{0178}']
    else if c == '\U{00B5}' then ['\U{039C}']
    else [c]
  }

  /** `s.toLowerCase()`. */
  function ToLower(s: string): (r: string)
    ensures |r| == |s|
  {
    seq(|s|, i requires 0 <= i < |s| => LowerChar(s[i]))
  }

  /** `s.toUpperCase()`: each character's capital, in order; a sharp s becomes two letters. */
  function ToUpper(s: string): (r: string)
    ensures |s| <= |r| <= 2 * |s|
  {
    if s == [] then [] else ToUpper(s[..|s| - 1]) + UpperOf(s[|s| - 1])
  }

  /** Upper-casing maps each piece of a concatenation separately. */
  lemma {:induction false} UpperConcat(a: string, b: string)
    ensures ToUpper(a + b) == ToUpper(a) + ToUpper(b)
    decreases |b|
  {
    if b == [] {
      assert a + b == a;
    } else {
      var b', c := b[..|b| - 1], b[|b| - 1];
      assert (a + b)[..|a + b| - 1] == a + b' && (a + b)[|a + b| - 1] == c;
      calc {
        ToUpper(a + b);
        ToUpper(a + b') + UpperOf(c);
        { UpperConcat(a, b'); }
        ToUpper(a) + ToUpper(b') + UpperOf(c);
        ToUpper(a) + ToUpper(b);
      }
    }
  }

  /** Upper-casing keeps the length exactly when there is no sharp s, and each sharp s adds one character. */
  lemma {:induction false} UpperLength(s: string)
    ensures (forall i :: 0 <= i < |s| ==> s[i] != '\U{00DF}') <==> |ToUpper(s)| == |s|
    decreases |s|
  {
    if s != [] {
      var s' := s[..|s| - 1];
      UpperLength(s');
      assert forall i :: 0 <= i < |s'| ==> s'[i] == s[i];
    }
  }

  /** The sharp s: `"ß".toUpperCase()` is `"SS"`, which lower-cases to `"ss"`, not back to `"ß"`. */
  lemma SharpSUpper()
    ensures ToUpper("\U{00DF}") == "SS"
    ensures ToLower(ToUpper("\U{00DF}")) != ToLower("\U{00DF}")
  {
    assert ToUpper("\U{00DF}") == ToUpper([]) + UpperOf('\U{00DF}');
    assert ToLower("SS")[0] == 's';
  }

  /** Lower-casing the capital of a character lower-cases the character, except for the sharp s and the micro sign. */
  lemma LowerOfUpper(c: char)
    requires c != '\U{00DF}' && c != '\U{00B5}'
    ensures ToLower(UpperOf(c)) == [LowerChar(c)]
  {
  }

  /**
   * Lower-casing is a projection, and it forgets any upper-casing done before
   * it in a text without a sharp s or a micro sign, whose capitals lower-case
   * to other letters.
   */
  lemma {:induction false} LowerForgetsCase(s: string)
    ensures ToLower(ToLower(s)) == ToLower(s)
    ensures (forall i :: 0 <= i < |s| ==> s[i] != '\U{00DF}' && s[i] != '\U{00B5}') ==> ToLower(ToUpper(s)) == ToLower(s)
    decreases |s|
  {
    if s != [] && forall i :: 0 <= i < |s| ==> s[i] != '\U{00DF}' && s[i] != '\U{00B5}' {
      var s' := s[..|s| - 1];
      LowerForgetsCase(s');
      LowerOfUpper(s[|s| - 1]);
      LowerConcat(ToUpper(s'), UpperOf(s[|s| - 1]));
      assert ToLower(s) == ToLower(s') + [LowerChar(s[|s| - 1])];
    }
  }

  /** Lower-casing maps each piece of a concatenation separately. */
  lemma LowerConcat(a: string, b: string)
    ensures ToLower(a + b) == ToLower(a) + ToLower(b)
  {
  }

  /** Case mapping leaves white space alone, so it commutes with `trim`. */
  lemma {:induction false} LowerCommutesWithTrim(s: string)
    ensures Trim(ToLower(s)) == ToLower(Trim(s))
  {
    LowerTrimStart(s);
    LowerTrimEnd(TrimStart(s));
  }

  lemma LowerTrimStart(s: string)
    ensures TrimStart(ToLower(s)) == ToLower(TrimStart(s))
  {
    LowerLeadingSpaces(s);
    var n := LeadingSpaces(s);
    assert ToLower(s)[n..] == ToLower(s[n..]);
  }

  lemma {:induction false} LowerLeadingSpaces(s: string)
    ensures LeadingSpaces(ToLower(s)) == LeadingSpaces(s)
    decreases |s|
  {
    if s != [] {
      assert ToLower(s)[0] == LowerChar(s[0]);
      if IsJsSpace(s[0]) {
        assert ToLower(s)[1..] == ToLower(s[1..]);
        LowerLeadingSpaces(s[1..]);
      }
    }
  }

  lemma {:induction false} LowerTrimEnd(s: string)
    ensures TrimEnd(ToLower(s)) == ToLower(TrimEnd(s))
    decreases |s|
  {
    if s != [] {
      assert ToLower(s)[|s| - 1] == LowerChar(s[|s| - 1]);
      if IsJsSpace(s[|s| - 1]) {
        assert ToLower(s)[..|s| - 1] == ToLower(s[..|s| - 1]);
        LowerTrimEnd(s[..|s| - 1]);
      }
    }
  }

  // --- Decimal rendering of a non-negative integer (`n.toString()`) ---

  predicate IsDigit(c: char) {
    '0' <= c <= '9'
  }

  predicate AllDigits(s: string) {
    forall k :: 0 <= k < |s| ==> IsDigit(s[k])
  }

  function DigitChar(d: nat): (c: char)
    requires d < 10
    ensures IsDigit(c) && c as int - '0' as int == d
  {
    ('0' as int + d) as char
  }

  /** `n.toString()`: the shortest decimal numeral of `n`. */
  function Decimal(n: nat): (r: string)
    ensures |r| >= 1 && AllDigits(r)
    ensures |r| > 1 ==> r[0] != '0'
  {
    if n < 10 then [DigitChar(n)] else Decimal(n / 10) + [DigitChar(n % 10)]
  }

  /** The number a string of decimal digits denotes. */
  function DigitsValue(s: string): nat
    requires AllDigits(s)
  {
    if s == [] then 0 else DigitsValue(s[..|s| - 1]) * 10 + (s[|s| - 1] as int - '0' as int)
  }

  function Pow10(k: nat): (p: nat)
    ensures p >= 1
  {
    if k == 0 then 1 else 10 * Pow10(k - 1)
  }

  /** JavaScript's `s.slice(-k)`: the last `k` characters, or all of `s` when it is shorter. */
  function Last(s: string, k: nat): (r: string)
    ensures |r| == if |s| <= k then |s| else k
    ensures r == s[|s| - |r|..]
  {
    if |s| <= k then s else s[|s| - k..]
  }

  /** Reading back the numeral gives the number. */
  lemma {:induction false} DecimalRoundTrip(n: nat)
    ensures DigitsValue(Decimal(n)) == n
    ensures n < Pow10(|Decimal(n)|)
  {
    if n >= 10 {
      DecimalRoundTrip(n / 10);
      var d := Decimal(n);
      assert d[..|d| - 1] == Decimal(n / 10);
    }
  }

  /** The last `k` digits of `n`'s numeral denote `n mod 10^k`. */
  lemma {:induction false} LastDigitsValue(n: nat, k: nat)
    ensures AllDigits(Last(Decimal(n), k))
    ensures DigitsValue(Last(Decimal(n), k)) == n % Pow10(k)
  {
    var d := Decimal(n);
    if |d| <= k {
      DecimalRoundTrip(n);
      Pow10Monotone(|d|, k);
      ModOfSmaller(n, Pow10(k));
    } else {
      SuffixValue(n, k);
    }
  }

  lemma {:induction false} SuffixValue(n: nat, k: nat)
    requires k <= |Decimal(n)|
    ensures AllDigits(Decimal(n)[|Decimal(n)| - k..])
    ensures DigitsValue(Decimal(n)[|Decimal(n)| - k..]) == n % Pow10(k)
    decreases n
  {
    var d := Decimal(n);
    var t := d[|d| - k..];
    assert AllDigits(t);
    if k == 0 {
      assert t == [];
    } else if n < 10 {
      assert t == d;
      ModOfSmaller(n, 10);
    } else {
      var d' := Decimal(n / 10);
      assert d == d' + [DigitChar(n % 10)];
      SuffixValue(n / 10, k - 1);
      var p := Pow10(k - 1);
      assert t[..|t| - 1] == d'[|d'| - (k - 1)..];
      assert t[|t| - 1] == DigitChar(n % 10);
      var front := DigitsValue(t[..|t| - 1]);
      assert front == (n / 10) % p;
      assert DigitsValue(t) == front * 10 + n % 10;
      ModStep(n, p);
      assert Pow10(k) == 10 * p;
    }
  }

  lemma Pow10Monotone(i: nat, j: nat)
    requires i <= j
    ensures Pow10(i) <= Pow10(j)
    decreases j
  {
    if i < j {
      Pow10Monotone(i, j - 1);
    }
  }

  lemma ModOfSmaller(n: nat, m: nat)
    requires n < m
    ensures n % m == n
  {
  }

  lemma ModUnique(n: int, m: int, a: int, b: int)
    requires m > 0 && n == m * a + b && 0 <= b < m
    ensures n % m == b && n / m == a
  {
    var q, r := n / m, n % m;
    assert m * (q - a) == b - r by {
      assert m * q - m * a == m * (q - a);
    }
    if q - a >= 1 {
      MulAtLeast(m, q - a);
    } else if q - a <= -1 {
      MulAtLeast(m, a - q);
    }
  }

  lemma MulAtLeast(m: int, d: int)
    requires m > 0 && d >= 1
    ensures m * d >= m
  {
    assert m * d == m * (d - 1) + m;
  }

  lemma ModStep(n: nat, p: nat)
    requires p >= 1
    ensures ((n / 10) % p) * 10 + n % 10 == n % (10 * p)
  {
    var q, r := n / 10, n % 10;
    var a, b := q / p, q % p;
    assert q == p * a + b;
    assert n == (10 * p) * a + (10 * b + r);
    ModUnique(n, 10 * p, a, 10 * b + r);
  }
}
