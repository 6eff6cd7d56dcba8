/**
 * Text handling shared by the instrument drivers: Python's `str.strip()`,
 * the conversions `int()` and `float()` applied to instrument replies, and
 * the regular-expression scan `[-+]?\d*\.?\d+` the thermocouple reader uses
 * to find the first number in the acquisition tool's output.
 */
module Text {
  import opened Options

  // ---------------------------------------------------------------------
  // Whitespace and str.strip()
  // ---------------------------------------------------------------------

  /** The characters for which Python's `str.isspace()` holds, i.e. the ones `strip()` removes. */
  predicate IsSpace(c: char) {
    c == ' ' || '\t' <= c <= '\r' || '\U{1C}' <= c <= '\U{1F}'
    || c == '\U{85}' || c == '\U{A0}' || c == '\U{1680}'
    || '\U{2000}' <= c <= '\U{200A}' || c == '\U{2028}' || c == '\U{2029}'
    || c == '\U{202F}' || c == '\U{205F}' || c == '\U{3000}'
  }

  predicate AllSpace(s: string) {
    forall i :: 0 <= i < |s| ==> IsSpace(s[i])
  }

  /** `s` with its leading whitespace removed. */
  function TrimStart(s: string): string {
    if s != [] && IsSpace(s[0]) then TrimStart(s[1..]) else s
  }

  /** `s` with its trailing whitespace removed. */
  function TrimEnd(s: string): string {
    if s != [] && IsSpace(s[|s| - 1]) then TrimEnd(s[..|s| - 1]) else s
  }

  /** Python's `s.strip()`. */
  function Strip(s: string): string {
    TrimEnd(TrimStart(s))
  }

  /** `TrimStart` keeps a suffix that does not start with whitespace, and drops only whitespace. */
  lemma {:induction false} TrimStartShape(s: string)
    ensures var r := TrimStart(s);
      |r| <= |s| && r == s[|s| - |r|..] && AllSpace(s[..|s| - |r|]) && (r == [] || !IsSpace(r[0]))
  {
    if s != [] && IsSpace(s[0]) {
      TrimStartShape(s[1..]);
      var r := TrimStart(s);
      assert s[1..][|s| - 1 - |r|..] == s[|s| - |r|..];
      forall i | 0 <= i < |s| - |r| ensures IsSpace(s[i]) {
        if i > 0 {
          assert s[i] == s[1..][..|s| - 1 - |r|][i - 1];
        }
      }
    }
  }

  /** `TrimEnd` keeps a prefix that does not end with whitespace, and drops only whitespace. */
  lemma {:induction false} TrimEndShape(s: string)
    ensures var r := TrimEnd(s);
      |r| <= |s| && r == s[..|r|] && AllSpace(s[|r|..]) && (r == [] || !IsSpace(r[|r| - 1]))
  {
    if s != [] && IsSpace(s[|s| - 1]) {
      var u := s[..|s| - 1];
      TrimEndShape(u);
      var r := TrimEnd(s);
      assert u[..|r|] == s[..|r|];
      forall i | |r| <= i < |s| ensures IsSpace(s[i]) {
        if i < |s| - 1 {
          assert s[i] == u[|r|..][i - |r|];
        }
      }
    }
  }

  /**
   * The result of `strip()` is a slice of `s` that neither starts nor ends with
   * whitespace, and everything cut away on either side is whitespace.
   */
  lemma StripShape(s: string)
    ensures var r := Strip(s);
      (r == [] || (!IsSpace(r[0]) && !IsSpace(r[|r| - 1]))) && exists i :: Padding(s, r, i)
  {
    var t := TrimStart(s);
    var r := TrimEnd(t);
    TrimStartShape(s);
    TrimEndShape(t);
    var i := |s| - |t|;
    assert s[i..i + |r|] == r;
    assert s[i + |r|..] == t[|r|..];
    assert Padding(s, r, i);
  }

  /** `s` is `r` with whitespace only before (the first `i` characters) and after it. */
  predicate Padding(s: string, r: string, i: nat) {
    i + |r| <= |s| && r == s[i..i + |r|] && AllSpace(s[..i]) && AllSpace(s[i + |r|..])
  }

  /** Stripping undoes whitespace padding: the stripped text is the unpadded core. */
  lemma {:induction false} StripPadding(pre: string, core: string, post: string)
    requires AllSpace(pre) && AllSpace(post)
    requires core == [] || (!IsSpace(core[0]) && !IsSpace(core[|core| - 1]))
    ensures Strip(pre + core + post) == core
  {
    if core == [] {
      assert pre + core + post == (pre + post) + [];
      TrimStartPadding(pre + post, []);
    } else {
      assert pre + core + post == pre + (core + post);
      TrimStartPadding(pre, core + post);
      TrimEndPadding(core, post);
    }
  }

  lemma {:induction false} TrimStartPadding(pre: string, rest: string)
    requires AllSpace(pre)
    requires rest == [] || !IsSpace(rest[0])
    ensures TrimStart(pre + rest) == rest
    decreases |pre|
  {
    if pre != [] {
      assert (pre + rest)[1..] == pre[1..] + rest;
      TrimStartPadding(pre[1..], rest);
    }
  }

  lemma {:induction false} TrimEndPadding(core: string, post: string)
    requires AllSpace(post)
    requires core == [] || !IsSpace(core[|core| - 1])
    ensures TrimEnd(core + post) == core
    decreases |post|
  {
    if post != [] {
      var last := |post| - 1;
      assert (core + post)[..|core + post| - 1] == core + post[..last];
      TrimEndPadding(core, post[..last]);
    } else {
      assert core + post == core;
    }
  }

  // ---------------------------------------------------------------------
  // Digits and integers (Python int())
  // ---------------------------------------------------------------------

  predicate IsDigit(c: char) { '0' <= c <= '9' }

  predicate IsSign(c: char) { c == '-' || c == '+' }

  predicate AllDigits(s: string) {
    forall i :: 0 <= i < |s| ==> IsDigit(s[i])
  }

  function DigitValue(c: char): nat
    requires IsDigit(c)
  {
    (c as int) - ('0' as int)
  }

  function DigitChar(d: nat): (c: char)
    requires d < 10
    ensures IsDigit(c) && DigitValue(c) == d
  {
    ('0' as int + d) as char
  }

  /** The value of a string of decimal digits, most significant first. */
  function DigitsValue(s: string): nat
    requires AllDigits(s)
  {
    if s == [] then 0 else DigitsValue(s[..|s| - 1]) * 10 + DigitValue(s[|s| - 1])
  }

  function Pow10(n: nat): (r: nat)
    ensures r >= 1
  {
    if n == 0 then 1 else 10 * Pow10(n - 1)
  }

  /** The decimal numeral of a natural number, as an instrument renders it. */
  function NatText(n: nat): (s: string)
    ensures |s| > 0 && AllDigits(s)
  {
    if n < 10 then [DigitChar(n)] else NatText(n / 10) + [DigitChar(n % 10)]
  }

  /** Signed decimal numeral of an integer. */
  function IntText(n: int): string {
    if n < 0 then "-" + NatText(-n) else NatText(n)
  }

  /**
   * Python's `int(text)` on an already stripped reply: an optional sign and at
   * least one decimal digit; anything else raises, modelled as `None`.
   */
  function ParseInt(s: string): (r: Option<int>)
    ensures r.Some? <==> (|s| > 0 && AllDigits(s)) || (|s| > 1 && IsSign(s[0]) && AllDigits(s[1..]))
    ensures r.Some? && !IsSign(s[0]) ==> r.value == DigitsValue(s)
    ensures r.Some? && IsSign(s[0]) ==> r.value == if s[0] == '-' then -(DigitsValue(s[1..]) as int) else DigitsValue(s[1..])
    ensures r.Some? && r.value < 0 ==> s[0] == '-'
  {
    if |s| > 0 && IsSign(s[0]) then
      if |s| > 1 && AllDigits(s[1..]) then
        Some(if s[0] == '-' then -(DigitsValue(s[1..]) as int) else DigitsValue(s[1..]))
      else None
    else if |s| > 0 && AllDigits(s) then Some(DigitsValue(s))
    else None
  }

  lemma {:induction false} NatTextValue(n: nat)
    ensures DigitsValue(NatText(n)) == n
  {
    if n >= 10 {
      var s := NatText(n / 10) + [DigitChar(n % 10)];
      assert s[..|s| - 1] == NatText(n / 10);
      NatTextValue(n / 10);
    }
  }

  /** Every integer the instrument renders is read back exactly by `int()`. */
  lemma IntTextRoundTrip(n: int)
    ensures ParseInt(IntText(n)) == Some(n)
  {
    if n < 0 {
      NatTextValue(-n);
      assert IntText(n)[1..] == NatText(-n);
    } else {
      NatTextValue(n);
    }
  }

  // ---------------------------------------------------------------------
  // Decimal numbers (Python float())
  // ---------------------------------------------------------------------

  predicate IsNumeralChar(c: char) { IsDigit(c) || c == '.' }

  predicate AtMostOneDot(u: string) {
    forall i, j :: 0 <= i < j < |u| && u[i] == '.' ==> u[j] != '.'
  }

  predicate HasDigit(u: string) {
    exists i :: 0 <= i < |u| && IsDigit(u[i])
  }

  /** The unsigned decimal grammar `\d+(\.\d*)?|\.\d+`, stated without reference to the parser. */
  predicate IsDecimalBody(u: string) {
    (forall i :: 0 <= i < |u| ==> IsNumeralChar(u[i])) && AtMostOneDot(u) && HasDigit(u)
  }

  /** A decimal number with an optional sign. */
  predicate IsDecimal(s: string) {
    if |s| > 0 && IsSign(s[0]) then IsDecimalBody(s[1..]) else IsDecimalBody(s)
  }

  /** Position of the first '.' in `u`, or `|u|` when there is none. */
  function DotIndex(u: string): (k: nat)
    ensures k <= |u| && (k < |u| ==> u[k] == '.')
    ensures forall i :: 0 <= i < k ==> u[i] != '.'
  {
    if u == [] || u[0] == '.' then 0 else 1 + DotIndex(u[1..])
  }

  /** 10^places as a real number. */
  function Scale(places: nat): (r: real)
    ensures r >= 1.0
  {
    Pow10(places) as real
  }

  /** `n / 10^places`. */
  function Quotient(n: int, places: nat): real {
    n as real / Scale(places)
  }

  /** All the digits, read as one integer, over ten to the number of fraction digits. */
  function DecimalValue(whole: string, frac: string): (v: real)
    requires AllDigits(whole) && AllDigits(frac)
    ensures v >= 0.0
  {
    assert AllDigits(whole + frac) by {
      forall i | 0 <= i < |whole + frac| ensures IsDigit((whole + frac)[i]) {
        if i >= |whole| { assert (whole + frac)[i] == frac[i - |whole|]; }
      }
    }
    Quotient(DigitsValue(whole + frac), |frac|)
  }

  /** The value of an unsigned decimal: whole part plus fraction digits over a power of ten. */
  function Unsigned(u: string): (r: Option<real>)
    ensures r.Some? ==> r.value >= 0.0
  {
    var k := DotIndex(u);
    var whole := u[..k];
    var frac := if k < |u| then u[k + 1..] else [];
    if AllDigits(whole) && AllDigits(frac) && |whole| + |frac| > 0 then Some(DecimalValue(whole, frac)) else None
  }

  lemma UnsignedAccepts(u: string)
    ensures Unsigned(u).Some? <==> IsDecimalBody(u)
  {
    var k := DotIndex(u);
    var whole := u[..k];
    var frac := if k < |u| then u[k + 1..] else [];
    if Unsigned(u).Some? {
      forall i | 0 <= i < |u| ensures IsNumeralChar(u[i]) && (i != k ==> IsDigit(u[i])) {
        if i < k {
          assert u[i] == whole[i];
        } else if i > k {
          assert u[i] == frac[i - k - 1];
        }
      }
      if |whole| > 0 {
        assert IsDigit(u[0]);
      } else {
        assert IsDigit(u[k + 1]);
      }
    }
    if IsDecimalBody(u) {
      forall i | 0 <= i < |whole| ensures IsDigit(whole[i]) {
        assert whole[i] == u[i];
      }
      if k < |u| {
        forall i | 0 <= i < |frac| ensures IsDigit(frac[i]) {
          assert frac[i] == u[k + 1 + i];
          assert u[k] == '.';
        }
      }
      var d :| 0 <= d < |u| && IsDigit(u[d]);
      assert d < k || d > k;
    }
  }

  /**
   * Python's `float(text)` on an already stripped reply, for plain decimal
   * notation: it succeeds exactly on the decimal grammar.
   */
  function ParseDecimal(s: string): (r: Option<real>)
    ensures r.Some? <==> IsDecimal(s)
    ensures r.Some? && r.value < 0.0 ==> s[0] == '-'
  {
    if |s| > 0 && IsSign(s[0]) then
      UnsignedAccepts(s[1..]);
      match Unsigned(s[1..])
      case None => None
      case Some(m) => Some(if s[0] == '-' then -m else m)
    else
      UnsignedAccepts(s);
      Unsigned(s)
  }

  // ---------------------------------------------------------------------
  // Fixed-point rendering f"{x:.Nf}"
  // ---------------------------------------------------------------------

  /** The integer nearest to `x >= 0`, ties going to the even neighbour. */
  function RoundHalfEven(x: real): (n: nat)
    requires x >= 0.0
    ensures -0.5 <= n as real - x <= 0.5
  {
    var f := x.Floor;
    var d := x - f as real;
    if d > 0.5 || (d == 0.5 && f % 2 == 1) then f + 1 else f
  }

  /** `s` with zeros added in front until it is at least `width` long. */
  function PadZeros(s: string, width: nat): (r: string)
    requires AllDigits(s)
    ensures AllDigits(r) && |r| >= width && |r| >= |s|
    ensures DigitsValue(r) == DigitsValue(s)
    decreases width - |s|
  {
    if |s| >= width then s
    else
      LeadingZero(s);
      PadZeros(['0'] + s, width)
  }

  lemma {:induction false} LeadingZero(s: string)
    requires AllDigits(s)
    ensures AllDigits(['0'] + s) && DigitsValue(['0'] + s) == DigitsValue(s)
  {
    var z := ['0'] + s;
    if s != [] {
      assert z[..|z| - 1] == ['0'] + s[..|s| - 1];
      LeadingZero(s[..|s| - 1]);
    }
  }

  lemma RoundScaled(x: real, scale: real)
    requires x >= 0.0 && scale >= 1.0
    ensures x * scale >= 0.0 && -0.5 <= RoundHalfEven(x * scale) as real - x * scale <= 0.5
  {
  }

  /** `n / 10^places` in decimal, with exactly `places` fraction digits and at least one whole digit. */
  function FixedText(n: nat, places: nat): (t: string)
    requires places > 0
    ensures |t| > places + 1 && IsDigit(t[0]) && IsDigit(t[|t| - 1]) && t[|t| - places - 1] == '.'
    ensures forall i :: 0 <= i < |t| ==> IsNumeralChar(t[i])
  {
    var d := PadZeros(NatText(n), places + 1);
    d[..|d| - places] + "." + d[|d| - places..]
  }

  /** Python's `f"{x:.{places}f}"` for `x >= 0`: the nearest multiple of 10^-places, in decimal. */
  function FormatUnsigned(x: real, places: nat): (t: string)
    requires x >= 0.0 && places > 0
    ensures |t| > places + 1 && IsDigit(t[0]) && IsDigit(t[|t| - 1]) && t[|t| - places - 1] == '.'
    ensures forall i :: 0 <= i < |t| ==> IsNumeralChar(t[i])
  {
    RoundScaled(x, Scale(places));
    FixedText(RoundHalfEven(x * Scale(places)), places)
  }

  lemma DotAfterDigits(w: string, f: string)
    requires AllDigits(w)
    ensures DotIndex(w + "." + f) == |w|
  {
    var u := w + "." + f;
    assert u[|w|] == '.';
    forall i | 0 <= i < |w| ensures u[i] != '.' {
      assert u[i] == w[i];
    }
  }

  /** Reading digits, a dot and digits back gives all the digits over a power of ten. */
  lemma DottedValue(w: string, f: string)
    requires AllDigits(w) && AllDigits(f) && |w| + |f| > 0
    ensures Unsigned(w + "." + f) == Some(DecimalValue(w, f))
  {
    var u := w + "." + f;
    DotAfterDigits(w, f);
    var k := DotIndex(u);
    assert k < |u|;
    var whole := u[..k];
    var frac := u[k + 1..];
    assert whole == w;
    assert frac == f;
  }

  /** The fixed-point text of `n` reads back as `n / 10^places`. */
  lemma FixedTextValue(n: nat, places: nat)
    requires places > 0
    ensures Unsigned(FixedText(n, places)) == Some(Quotient(n, places))
  {
    var d := PadZeros(NatText(n), places + 1);
    var w := d[..|d| - places];
    var f := d[|d| - places..];
    assert w + f == d;
    NatTextValue(n);
    DottedValue(w, f);
  }

  /** The rendered text reads back as the rounded scaled value over the scale. */
  lemma FormatUnsignedValue(x: real, places: nat)
    requires x >= 0.0 && places > 0
    ensures x * Scale(places) >= 0.0
    ensures Unsigned(FormatUnsigned(x, places)) == Some(Quotient(RoundHalfEven(x * Scale(places)), places))
  {
    var n := RoundHalfEven(x * Scale(places));
    assert FormatUnsigned(x, places) == FixedText(n, places);
    FixedTextValue(n, places);
  }

  /** `float()` reads back exactly the rounded value that `f"{x:.Nf}"` wrote. */
  lemma FormatUnsignedRoundTrip(x: real, places: nat)
    requires x >= 0.0 && places > 0
    ensures x * Scale(places) >= 0.0
    ensures ParseDecimal(FormatUnsigned(x, places)) == Some(Quotient(RoundHalfEven(x * Scale(places)), places))
  {
    var t := FormatUnsigned(x, places);
    FormatUnsignedValue(x, places);
    UnsignedAccepts(t);
  }

  /** The rounded value is within half a unit in the last place of `x`. */
  lemma RoundedNear(x: real, places: nat)
    requires x >= 0.0
    ensures x * Scale(places) >= 0.0
    ensures var y := Quotient(RoundHalfEven(x * Scale(places)), places);
      -0.5 / Scale(places) <= y - x <= 0.5 / Scale(places)
  {
    RoundScaled(x, Scale(places));
    var n := RoundHalfEven(x * Scale(places)) as real;
    Unscale(n / Scale(places), x, Scale(places), n);
  }

  /** Dividing an error of at most one half by a scale `s >= 1`. */
  lemma Unscale(y: real, x: real, s: real, m: real)
    requires s >= 1.0 && y == m / s && -0.5 <= m - x * s <= 0.5
    ensures -0.5 / s <= y - x <= 0.5 / s
  {
    var e := m - x * s;
    assert y * s == m;
    assert (y - x) * s == e;
    assert y - x == e / s;
    assert (0.5 - e) / s >= 0.0;
    assert (e + 0.5) / s >= 0.0;
    assert (0.5 - e) / s == 0.5 / s - e / s;
    assert (e + 0.5) / s == e / s + 0.5 / s;
  }

  // ---------------------------------------------------------------------
  // The scan re.search(r'[-+]?\d*\.?\d+', text)
  // ---------------------------------------------------------------------

  /** The language of `\d*\.?\d+`: digits with at most one dot, ending in a digit. */
  predicate IsNumeral(u: string) {
    && |u| > 0
    && IsDigit(u[|u| - 1])
    && (forall i :: 0 <= i < |u| ==> IsNumeralChar(u[i]))
    && AtMostOneDot(u)
  }

  /** The language of the whole pattern `[-+]?\d*\.?\d+`. */
  predicate IsToken(t: string) {
    if |t| > 0 && IsSign(t[0]) then IsNumeral(t[1..]) else IsNumeral(t)
  }

  /** Every string the pattern matches is a number `float()` accepts. */
  lemma TokenIsDecimal(t: string)
    requires IsToken(t)
    ensures IsDecimal(t)
  {
    var u := if |t| > 0 && IsSign(t[0]) then t[1..] else t;
    assert IsDigit(u[|u| - 1]);
  }

  /** The value `float()` gives a matched token. */
  function TokenValue(t: string): real
    requires IsToken(t)
  {
    TokenIsDecimal(t);
    ParseDecimal(t).value
  }

  /** Every character of `s` in `[a, b)` is a digit. */
  predicate DigitsBetween(s: string, a: nat, b: nat)
    requires a <= b <= |s|
  {
    forall i :: a <= i < b ==> IsDigit(s[i])
  }

  /** Length of the run of digits starting at `j`. */
  function DigitRun(s: string, j: nat): (n: nat)
    requires j <= |s|
    ensures j + n <= |s| && DigitsBetween(s, j, j + n)
    ensures j + n == |s| || !IsDigit(s[j + n])
    decreases |s| - j
  {
    if j < |s| && IsDigit(s[j]) then 1 + DigitRun(s, j + 1) else 0
  }

  /** Where the unsigned part of a match starting at `p` begins: past the sign, if there is one. */
  function SignEnd(s: string, p: nat): (j: nat)
    requires p <= |s|
    ensures p <= j <= |s|
  {
    if p < |s| && IsSign(s[p]) then p + 1 else p
  }

  lemma TokenSlice(s: string, p: nat, k: nat)
    requires p < k <= |s|
    ensures SignEnd(s, p) <= k
    ensures IsToken(s[p..k]) <==> IsNumeral(s[SignEnd(s, p)..k])
  {
    if IsSign(s[p]) {
      assert s[p..k][1..] == s[p + 1..k];
    }
  }

  /** A run of digits is a numeral. */
  lemma DigitsAreNumeral(s: string, j: nat, k: nat)
    requires j < k <= |s| && DigitsBetween(s, j, k)
    ensures IsNumeral(s[j..k])
  {
    var u := s[j..k];
    forall a | 0 <= a < |u| ensures IsDigit(u[a]) {
      assert u[a] == s[j + a];
    }
  }

  /** Digits, one dot, and at least one digit after it form a numeral. */
  lemma DottedIsNumeral(s: string, j: nat, d: nat, k: nat)
    requires j <= d && d + 1 < k <= |s|
    requires DigitsBetween(s, j, d) && s[d] == '.' && DigitsBetween(s, d + 1, k)
    ensures IsNumeral(s[j..k])
  {
    var u := s[j..k];
    forall a | 0 <= a < |u| ensures IsNumeralChar(u[a]) && (a != d - j ==> IsDigit(u[a])) {
      assert u[a] == s[j + a];
    }
  }

  /** A numeral is either all digits, or digits, one dot and at least one more digit. */
  lemma NumeralShape(s: string, j: nat, k: nat) returns (d: nat)
    requires j <= k <= |s| && IsNumeral(s[j..k])
    ensures j <= d < k && DigitsBetween(s, j, d)
    ensures d + 1 == k ==> DigitsBetween(s, j, k)
    ensures d + 1 < k ==> s[d] == '.' && DigitsBetween(s, d + 1, k)
  {
    var u := s[j..k];
    assert forall a :: j <= a < k ==> s[a] == u[a - j];
    if a :| j <= a < k && s[a] == '.' {
      d := a;
      assert u[|u| - 1] == s[k - 1];
      assert d + 1 < k;
      forall i | j <= i < d ensures IsDigit(s[i]) {
        assert IsNumeralChar(u[i - j]) && u[i - j] != '.';
      }
      forall i | d < i < k ensures IsDigit(s[i]) {
        assert IsNumeralChar(u[i - j]) && u[i - j] != '.';
      }
    } else {
      d := k - 1;
      forall i | j <= i < k ensures IsDigit(s[i]) {
        assert IsNumeralChar(u[i - j]);
      }
    }
  }

  /**
   * Where the pattern's greedy, backtracking match starting at `p` ends: the
   * sign if any, all the digits, and a dot with the digits after it only when
   * at least one digit follows the dot.
   */
  function MatchEnd(s: string, p: nat): Option<nat>
    requires p <= |s|
  {
    var j := SignEnd(s, p);
    var e := j + DigitRun(s, j);
    if e + 1 < |s| && s[e] == '.' && IsDigit(s[e + 1]) then Some(e + 1 + DigitRun(s, e + 1))
    else if e > j then Some(e)
    else None
  }

  /** The greedy match is a match. */
  lemma MatchEndIsToken(s: string, p: nat)
    requires p <= |s| && MatchEnd(s, p).Some?
    ensures p < MatchEnd(s, p).value <= |s|
    ensures IsToken(s[p..MatchEnd(s, p).value])
  {
    var k := MatchEnd(s, p).value;
    var j := SignEnd(s, p);
    var e := j + DigitRun(s, j);
    if e + 1 < |s| && s[e] == '.' && IsDigit(s[e + 1]) {
      DottedIsNumeral(s, j, e, k);
    } else {
      DigitsAreNumeral(s, j, k);
    }
    TokenSlice(s, p, k);
  }

  /** No match starting at `p` extends beyond the greedy one, and there is none when the greedy one fails. */
  lemma TokenWithinMatch(s: string, p: nat, k: nat)
    requires p < k <= |s| && IsToken(s[p..k])
    ensures MatchEnd(s, p).Some? && k <= MatchEnd(s, p).value
  {
    TokenSlice(s, p, k);
    var j := SignEnd(s, p);
    var e := j + DigitRun(s, j);
    var d := NumeralShape(s, j, k);
    if d + 1 < k {
      // The dot must sit exactly where the leading run of digits stops.
      assert d == e;
    }
  }

  /** The greedy match is the longest match starting at `p`. */
  lemma MatchIsLongest(s: string, p: nat)
    requires p <= |s| && MatchEnd(s, p).Some?
    ensures forall k :: MatchEnd(s, p).value < k <= |s| ==> !IsToken(s[p..k])
  {
    forall k | MatchEnd(s, p).value < k <= |s| && IsToken(s[p..k]) ensures false {
      TokenWithinMatch(s, p, k);
    }
  }

  /** No match of the pattern starts at `p`. */
  lemma NoTokenAt(s: string, p: nat)
    requires p <= |s| && MatchEnd(s, p).None?
    ensures forall k :: p < k <= |s| ==> !IsToken(s[p..k])
  {
    forall k | p < k <= |s| && IsToken(s[p..k]) ensures false {
      TokenWithinMatch(s, p, k);
    }
  }

  /**
   * `re.search` from position `from`: the first position where the greedy
   * pattern matches, and where that match ends.
   */
  function FindToken(s: string, from: nat): (r: Option<(nat, nat)>)
    requires from <= |s|
    ensures r.Some? ==> from <= r.value.0 < r.value.1 <= |s| && IsToken(s[r.value.0..r.value.1])
    ensures r.Some? ==> MatchEnd(s, r.value.0) == Some(r.value.1)
    decreases |s| - from
  {
    if from == |s| then None
    else
      match MatchEnd(s, from)
      case Some(k) =>
        MatchEndIsToken(s, from);
        Some((from, k))
      case None => FindToken(s, from + 1)
  }

  /** No substring starting in `[from, to)` matches the pattern. */
  predicate NoTokenBetween(s: string, from: nat, to: nat) {
    forall q, k :: from <= q < to && q < k <= |s| ==> !IsToken(s[q..k])
  }

  /** The match found is the longest one at its position. */
  lemma FindTokenLongest(s: string, from: nat)
    requires from <= |s| && FindToken(s, from).Some?
    ensures forall k :: FindToken(s, from).value.1 < k <= |s| ==> !IsToken(s[FindToken(s, from).value.0..k])
  {
    MatchIsLongest(s, FindToken(s, from).value.0);
  }

  /** The match found is the leftmost one from `from` on; there is none exactly when nothing from `from` on matches. */
  lemma {:induction false} FindTokenLeftmost(s: string, from: nat)
    requires from <= |s|
    ensures NoTokenBetween(s, from, if FindToken(s, from).None? then |s| else FindToken(s, from).value.0)
    decreases |s| - from
  {
    if from < |s| && MatchEnd(s, from).None? {
      NoTokenAt(s, from);
      FindTokenLeftmost(s, from + 1);
    }
  }

  /** The number `float(re.search(...).group())` yields for the first match in `s`, if any. */
  function FirstNumber(s: string): Option<real> {
    match FindToken(s, 0)
    case None => None
    case Some((p, k)) => Some(TokenValue(s[p..k]))
  }

  /** There is no number exactly when no substring of `s` matches the pattern. */
  lemma FirstNumberNone(s: string)
    ensures FirstNumber(s).None? <==> forall q, k :: 0 <= q < k <= |s| ==> !IsToken(s[q..k])
  {
    FindTokenLeftmost(s, 0);
  }
}
