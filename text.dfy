/**
 * String primitives of the PHP runtime that the model needs, written out.
 * A PHP string is read as the sequence of Unicode characters it encodes in UTF-8;
 * `Utf8Length` gives back PHP's byte count (`strlen`).
 */
module Text {
  import opened Wrappers

  predicate IsDigit(c: char) {
    '0' <= c <= '9'
  }

  /** PCRE's `\w` without the `u` flag: ASCII letters, digits and underscore. */
  predicate IsWordChar(c: char) {
    ('a' <= c <= 'z') || ('A' <= c <= 'Z') || IsDigit(c) || c == '_'
  }

  predicate AllDigits(s: string) {
    forall i :: 0 <= i < |s| ==> IsDigit(s[i])
  }

  predicate AllWordChars(s: string) {
    forall i :: 0 <= i < |s| ==> IsWordChar(s[i])
  }

  predicate IsUpper(c: char) {
    'A' <= c <= 'Z'
  }

  /** `strtolower` on one character: ASCII letters only. */
  function LowerChar(c: char): (r: char)
    ensures !IsUpper(r)
    ensures IsUpper(c) ==> r as int == c as int + 32
    ensures !IsUpper(c) ==> r == c
  {
    if IsUpper(c) then (c as int + 32) as char else c
  }

  function Lower(s: string): (r: string)
    ensures |r| == |s|
    ensures forall i :: 0 <= i < |s| ==> r[i] == LowerChar(s[i])
  {
    if s == [] then [] else [LowerChar(s[0])] + Lower(s[1..])
  }

  /** `t` occurs in `s` starting at index `p`. */
  predicate PrefixAt(s: string, p: nat, t: string) {
    p + |t| <= |s| && s[p..p + |t|] == t
  }

  /** `str_contains($s, $t)`. */
  predicate Contains(s: string, t: string) {
    exists p: nat | p <= |s| :: PrefixAt(s, p, t)
  }

  /** `str_starts_with($s, $t)`. */
  predicate StartsWith(s: string, t: string) {
    PrefixAt(s, 0, t)
  }

  /** `str_ends_with($s, $t)`. */
  predicate EndsWith(s: string, t: string) {
    |t| <= |s| && s[|s| - |t|..] == t
  }

  /** `rtrim($s, $c)` for a single character `c`: drops every trailing `c`. */
  function RTrimChar(s: string, c: char): (r: string)
    ensures |r| <= |s| && r == s[..|r|]
    ensures r == [] || r[|r| - 1] != c
    ensures forall i :: |r| <= i < |s| ==> s[i] == c
  {
    if s != [] && s[|s| - 1] == c then RTrimChar(s[..|s| - 1], c) else s
  }

  /** The characters PHP's `trim` strips by default: " \t\n\r\0\x0B". */
  predicate IsTrimChar(c: char) {
    c == ' ' || c == '\t' || c == '\n' || c == '\r' || c == '\0' || c == '\U{0B}'
  }

  function LTrimChars(s: string): (r: string)
    ensures |r| <= |s| && r == s[|s| - |r|..]
    ensures r == [] || !IsTrimChar(r[0])
  {
    if s != [] && IsTrimChar(s[0]) then LTrimChars(s[1..]) else s
  }

  function RTrimChars(s: string): (r: string)
    ensures |r| <= |s| && r == s[..|r|]
    ensures r == [] || !IsTrimChar(r[|r| - 1])
  {
    if s != [] && IsTrimChar(s[|s| - 1]) then RTrimChars(s[..|s| - 1]) else s
  }

  /** PHP's `trim($s)`. */
  function PhpTrim(s: string): (r: string)
    ensures r == [] || (!IsTrimChar(r[0]) && !IsTrimChar(r[|r| - 1]))
  {
    RTrimChars(LTrimChars(s))
  }

  /** Bytes taken by one character in UTF-8. */
  function Utf8Width(c: char): (w: nat)
    ensures 1 <= w <= 4
  {
    if c as int < 0x80 then 1
    else if c as int < 0x800 then 2
    else if c as int < 0x10000 then 3
    else 4
  }

  /** PHP's `strlen` of the UTF-8 encoding of `s`. */
  function Utf8Length(s: string): (n: nat)
    ensures |s| <= n <= 4 * |s|
  {
    if s == [] then 0 else Utf8Width(s[0]) + Utf8Length(s[1..])
  }

  function DigitChar(d: nat): (c: char)
    requires d < 10
    ensures IsDigit(c)
  {
    ('0' as int + d) as char
  }

  function DigitValue(c: char): (d: nat)
    requires IsDigit(c)
    ensures d < 10
  {
    c as int - '0' as int
  }

  /** PHP's decimal rendering of a non-negative integer. */
  function NatToString(n: nat): (s: string)
    ensures |s| > 0 && AllDigits(s)
    decreases n
  {
    if n < 10 then [DigitChar(n)] else NatToString(n / 10) + [DigitChar(n % 10)]
  }

  /** PHP's decimal rendering of an integer (`(string) $i`). */
  function IntToString(i: int): string {
    if i < 0 then "-" + NatToString(-i) else NatToString(i)
  }

  /** The value of a string of decimal digits, most significant first. */
  function DigitsValue(s: string): nat
    requires AllDigits(s)
  {
    if s == [] then 0 else 10 * DigitsValue(s[..|s| - 1]) + DigitValue(s[|s| - 1])
  }

  /** Reading back a rendered number gives the number. */
  lemma {:induction false} DigitsValueOfNatToString(n: nat)
    ensures DigitsValue(NatToString(n)) == n
    decreases n
  {
    if n >= 10 {
      var s := NatToString(n);
      DigitsValueOfNatToString(n / 10);
      assert s[..|s| - 1] == NatToString(n / 10);
      assert s[|s| - 1] == DigitChar(n % 10);
    }
  }

  /** The index just past the run of digits that starts at `p`. */
  function DigitRunEnd(s: string, p: nat): (e: nat)
    requires p <= |s|
    ensures p <= e <= |s|
    ensures forall i :: p <= i < e ==> IsDigit(s[i])
    ensures e == |s| || !IsDigit(s[e])
    decreases |s| - p
  {
    if p < |s| && IsDigit(s[p]) then DigitRunEnd(s, p + 1) else p
  }

  /** The index just past the run of word characters (`\w`) that starts at `p`. */
  function WordRunEnd(s: string, p: nat): (e: nat)
    requires p <= |s|
    ensures p <= e <= |s|
    ensures forall j :: p <= j < e ==> IsWordChar(s[j])
    ensures e == |s| || !IsWordChar(s[e])
    decreases |s| - p
  {
    if p < |s| && IsWordChar(s[p]) then WordRunEnd(s, p + 1) else p
  }

  /** The whitespace PHP skips before a numeric string: " \t\n\r\v\f". */
  predicate IsNumericSpace(c: char) {
    c == ' ' || c == '\t' || c == '\n' || c == '\r' || c == '\U{0B}' || c == '\U{0C}'
  }

  predicate AllNumericSpace(s: string) {
    forall i :: 0 <= i < |s| ==> IsNumericSpace(s[i])
  }

  function SkipNumericSpace(s: string, p: nat): (q: nat)
    requires p <= |s|
    ensures p <= q <= |s|
    ensures q == |s| || !IsNumericSpace(s[q])
    decreases |s| - p
  {
    if p < |s| && IsNumericSpace(s[p]) then SkipNumericSpace(s, p + 1) else p
  }

  /** The bounds of PHP's 64-bit `int`. */
  const IntMax: int := 0x7FFF_FFFF_FFFF_FFFF
  const IntMin: int := -0x8000_0000_0000_0000

  /** 2^1024 - 2^970: halfway between the largest finite double and 2^1024. A decimal of at
   *  least this magnitude is read by `strtod` as infinity. */
  const DoubleOverflow: nat := 0xfffffffffffffc00000000000000000000000000000000000000000000000000000000000000000000000000000000000000000000000000000000000000000000000000000000000000000000000000000000000000000000000000000000000000000000000000000000000000000000000000000000000000000000000000

  function Pow10(n: nat): (r: nat)
    ensures r >= 1
  {
    if n == 0 then 1 else 10 * Pow10(n - 1)
  }

  /** A decimal number as written: `digits * 10^scale`, negated when `negative`. */
  datatype Decimal = Decimal(negative: bool, digits: nat, scale: int)

  /** The exponent `[eE][+-]?[0-9]+` at `p`, as the index past it and its value; none when no digit follows. */
  function ExponentAt(s: string, p: nat): (r: Option<(nat, int)>)
    requires p <= |s|
    ensures r.Some? ==> p + 2 <= r.value.0 <= |s|
  {
    if p < |s| && (s[p] == 'e' || s[p] == 'E') then
      var q := if p + 1 < |s| && (s[p + 1] == '-' || s[p + 1] == '+') then p + 2 else p + 1;
      var e := DigitRunEnd(s, q);
      if e == q then None
      else
        var n: int := DigitsValue(s[q..e]);
        Some((e, if s[p + 1] == '-' then -n else n))
    else None
  }

  /** The value of the exponent at `p`; 0 when there is none. */
  function ExponentValue(s: string, p: nat): int
    requires p <= |s|
  {
    var exponent := ExponentAt(s, p);
    if exponent.Some? then exponent.value.1 else 0
  }

  /**
   * The numeric prefix PHP's `is_numeric_string` reads when trailing data is allowed: whitespace,
   * an optional sign, digits with an optional `.` fraction (at least one digit in all), then an
   * optional exponent. None when the string does not start with a number.
   */
  function NumericPrefix(s: string): (r: Option<Decimal>)
  {
    var m := Mantissa(s);
    if m.intEnd == m.intStart && m.fracEnd == m.fracStart then None
    else
      var e := ExponentValue(s, m.fracEnd);
      AllDigitsAppend(s[m.intStart..m.intEnd], s[m.fracStart..m.fracEnd]);
      Some(Decimal(m.negative, DigitsValue(s[m.intStart..m.intEnd] + s[m.fracStart..m.fracEnd]), e - (m.fracEnd - m.fracStart)))
  }

  /** Where the digits of a numeric prefix lie: its integer digits and its fraction digits (after the `.`). */
  datatype Span = Span(negative: bool, intStart: nat, intEnd: nat, fracStart: nat, fracEnd: nat)

  /** The sign and the digit runs at the start of `s`, after its whitespace. */
  function Mantissa(s: string): (m: Span)
    ensures m.intStart <= m.intEnd <= m.fracStart <= m.fracEnd <= |s|
    ensures AllDigits(s[m.intStart..m.intEnd]) && AllDigits(s[m.fracStart..m.fracEnd])
  {
    var p := SkipNumericSpace(s, 0);
    var q := if p < |s| && (s[p] == '-' || s[p] == '+') then p + 1 else p;
    var intEnd := DigitRunEnd(s, q);
    var fracStart := if intEnd < |s| && s[intEnd] == '.' then intEnd + 1 else intEnd;
    var fracEnd := DigitRunEnd(s, fracStart);
    Span(p < |s| && s[p] == '-', q, intEnd, fracStart, fracEnd)
  }

  lemma AllDigitsAppend(a: string, b: string)
    requires AllDigits(a) && AllDigits(b)
    ensures AllDigits(a + b)
  {
    assert forall i :: |a| <= i < |a + b| ==> (a + b)[i] == b[i - |a|];
  }

  /** A run of digits ends at the first non-digit. */
  lemma {:induction false} DigitRunEndAt(s: string, p: nat, e: nat)
    requires p <= e <= |s|
    requires forall i :: p <= i < e ==> IsDigit(s[i])
    requires e == |s| || !IsDigit(s[e])
    ensures DigitRunEnd(s, p) == e
    decreases e - p
  {
    if p < e {
      DigitRunEndAt(s, p + 1, e);
    }
  }

  /** A run of whitespace ends at the first other character. */
  lemma {:induction false} SkipNumericSpaceAt(s: string, p: nat, e: nat)
    requires p <= e <= |s|
    requires forall i :: p <= i < e ==> IsNumericSpace(s[i])
    requires e == |s| || !IsNumericSpace(s[e])
    ensures SkipNumericSpace(s, p) == e
    decreases e - p
  {
    if p < e {
      SkipNumericSpaceAt(s, p + 1, e);
    }
  }

  /** An exponent whose digits follow the `e` directly. */
  lemma ExponentOfDigits(s: string, p: nat, e: nat)
    requires p + 1 < e <= |s| && (s[p] == 'e' || s[p] == 'E')
    requires AllDigits(s[p + 1..e])
    requires e == |s| || !IsDigit(s[e])
    ensures ExponentAt(s, p) == Some((e, DigitsValue(s[p + 1..e])))
  {
    DigitRun(s, p + 1, e);
    assert IsDigit(s[p + 1..e][0]);
  }

  /** Whitespace, then unsigned digits not followed by a fraction: the digits, scaled by the exponent if one follows. */
  lemma NumericPrefixOfInteger(s: string, p: nat, e: nat)
    requires p < e <= |s|
    requires AllNumericSpace(s[..p]) && AllDigits(s[p..e])
    requires e == |s| || (!IsDigit(s[e]) && s[e] != '.')
    ensures NumericPrefix(s) == Some(Decimal(false, DigitsValue(s[p..e]), ExponentValue(s, e)))
  {
    MantissaOfInteger(s, p, e);
    assert s[p..e] + s[e..e] == s[p..e];
  }

  /** The digit run of an integer after whitespace. */
  lemma MantissaOfInteger(s: string, p: nat, e: nat)
    requires p < e <= |s|
    requires AllNumericSpace(s[..p]) && AllDigits(s[p..e])
    requires e == |s| || (!IsDigit(s[e]) && s[e] != '.')
    ensures Mantissa(s) == Span(false, p, e, e, e)
  {
    assert IsDigit(s[p..e][0]);
    SpaceRun(s, p);
    DigitRun(s, p, e);
  }

  /** Whitespace filling `s[..p]` ends at `p` when `s[p]` is not whitespace. */
  lemma SpaceRun(s: string, p: nat)
    requires p < |s| && AllNumericSpace(s[..p]) && !IsNumericSpace(s[p])
    ensures SkipNumericSpace(s, 0) == p
  {
    assert forall i :: 0 <= i < p ==> s[..p][i] == s[i];
    SkipNumericSpaceAt(s, 0, p);
  }

  /** Digits filling `s[p..e]` run to `e` when `s[e]` is not a digit. */
  lemma DigitRun(s: string, p: nat, e: nat)
    requires p <= e <= |s| && AllDigits(s[p..e])
    requires e == |s| || !IsDigit(s[e])
    ensures DigitRunEnd(s, p) == e
  {
    assert forall i :: p <= i < e ==> s[p..e][i - p] == s[i];
    DigitRunEndAt(s, p, e);
  }

  /** A minus sign, then digits running to the end: their value, negated. */
  lemma NumericPrefixOfNegative(s: string)
    requires 1 < |s| && s[0] == '-'
    requires forall i :: 1 <= i < |s| ==> IsDigit(s[i])
    ensures NumericPrefix(s) == Some(Decimal(true, DigitsValue(s[1..]), 0))
  {
    assert Mantissa(s) == Span(true, 1, |s|, |s|, |s|) by {
      assert SkipNumericSpace(s, 0) == 0;
      DigitRunEndAt(s, 1, |s|);
    }
    assert s[1..|s|] + s[|s|..|s|] == s[1..];
  }

  /** Whitespace, then unsigned digits with a fraction: all the digits, scaled down by the fraction's length. */
  lemma NumericPrefixOfFraction(s: string, p: nat, d: nat, e: nat)
    requires p < d < e <= |s| && s[d] == '.'
    requires AllNumericSpace(s[..p]) && AllDigits(s[p..d]) && AllDigits(s[d + 1..e])
    requires e == |s| || !IsDigit(s[e])
    ensures NumericPrefix(s) ==
      Some(Decimal(false, DigitsValue(s[p..d] + s[d + 1..e]), ExponentValue(s, e) - (e - d - 1)))
  {
    MantissaOfFraction(s, p, d, e);
  }

  /** The digit runs of a fraction after whitespace. */
  lemma MantissaOfFraction(s: string, p: nat, d: nat, e: nat)
    requires p < d < e <= |s| && s[d] == '.'
    requires AllNumericSpace(s[..p]) && AllDigits(s[p..d]) && AllDigits(s[d + 1..e])
    requires e == |s| || !IsDigit(s[e])
    ensures Mantissa(s) == Span(false, p, d, d + 1, e)
  {
    assert IsDigit(s[p..d][0]);
    SpaceRun(s, p);
    DigitRun(s, p, d);
    DigitRun(s, d + 1, e);
  }

  /** The integer part of a decimal: its value rounded toward zero. */
  function Truncate(d: Decimal): int {
    var m: int := if d.scale >= 0 then d.digits * Pow10(d.scale) else d.digits / Pow10(-d.scale);
    if d.negative then -m else m
  }

  /** Whether the magnitude of `d` is at least `DoubleOverflow`. */
  predicate OverflowsDouble(d: Decimal) {
    if d.scale >= 0 then d.digits * Pow10(d.scale) >= DoubleOverflow
    else d.digits >= DoubleOverflow * Pow10(-d.scale)
  }

  /** `zend_dval_to_lval_cap`: values beyond the 64-bit range become its nearer bound. */
  function Saturate(i: int): (r: int)
    ensures IntMin <= r <= IntMax
    ensures IntMin <= i <= IntMax ==> r == i
    ensures i > IntMax ==> r == IntMax
    ensures i < IntMin ==> r == IntMin
  {
    if i > IntMax then IntMax else if i < IntMin then IntMin else i
  }

  /** `zend_dval_to_lval`: values beyond the 64-bit range wrap modulo 2^64. */
  function Wrap64(i: int): (r: int)
    ensures IntMin <= r <= IntMax
    ensures IntMin <= i <= IntMax ==> r == i
    ensures (r - i) % 0x1_0000_0000_0000_0000 == 0
  {
    (i - IntMin) % 0x1_0000_0000_0000_0000 + IntMin
  }

  /**
   * PHP's `(int)` of a string: its numeric prefix, truncated toward zero and saturated to the
   * 64-bit range; 0 when the string does not start with a number or the number overflows a double.
   */
  function LeadingInt(s: string): (r: int)
    ensures IntMin <= r <= IntMax
    ensures NumericPrefix(s).None? ==> r == 0
  {
    match NumericPrefix(s)
    case None => 0
    case Some(d) => if OverflowsDouble(d) then 0 else Saturate(Truncate(d))
  }

  /**
   * PHP's `(int)` of a float, given by its rendering ("4.5", "1.0E-5", "INF"): truncated toward
   * zero and wrapped modulo 2^64 outside the 64-bit range; INF and NAN give 0.
   */
  function FloatToInt(repr: string): (r: int)
    ensures IntMin <= r <= IntMax
    ensures NumericPrefix(repr).None? ==> r == 0
  {
    match NumericPrefix(repr)
    case None => 0
    case Some(d) => Wrap64(Truncate(d))
  }

  /** The digits of a rendered integer are read back as that integer. */
  lemma NumericPrefixOfIntToString(i: int)
    ensures NumericPrefix(IntToString(i)) == Some(Decimal(i < 0, if i < 0 then -i else i, 0))
  {
    var s := IntToString(i);
    var n: nat := if i < 0 then -i else i;
    DigitsValueOfNatToString(n);
    if i < 0 {
      assert s[1..] == NatToString(n);
      NumericPrefixOfNegative(s);
    } else {
      NumericPrefixOfInteger(s, 0, |s|);
      assert s[0..|s|] == s;
    }
  }

  /** `(int)` of a rendered 64-bit integer gives the integer back. */
  lemma LeadingIntOfIntToString(i: int)
    requires IntMin <= i <= IntMax
    ensures LeadingInt(IntToString(i)) == i
  {
    NumericPrefixOfIntToString(i);
  }

  /** `(int)` of a string of decimal digits is their value, saturated at `IntMax`. */
  lemma LeadingIntOfDigits(s: string)
    requires |s| > 0 && AllDigits(s) && DigitsValue(s) < DoubleOverflow
    ensures LeadingInt(s) == if DigitsValue(s) <= IntMax then DigitsValue(s) else IntMax
  {
    NumericPrefixOfInteger(s, 0, |s|);
    assert s[0..|s|] == s;
  }

  /** Whether `rest` cannot continue a number: it is empty or starts with no digit, `.`, `e` or `E`. */
  predicate EndsNumber(rest: string) {
    rest == [] || !(IsDigit(rest[0]) || rest[0] == '.' || rest[0] == 'e' || rest[0] == 'E')
  }

  /** The value of digits followed by more digits. */
  lemma {:induction false} DigitsValueAppend(a: string, b: string)
    requires AllDigits(a) && AllDigits(b)
    ensures AllDigits(a + b)
    ensures DigitsValue(a + b) == DigitsValue(a) * Pow10(|b|) + DigitsValue(b)
    decreases |b|
  {
    AllDigitsAppend(a, b);
    if b == [] {
      assert a + b == a;
    } else {
      var b' := b[..|b| - 1];
      assert (a + b)[..|a + b| - 1] == a + b';
      assert AllDigits(b') by { assert forall i :: 0 <= i < |b'| ==> b'[i] == b[i]; }
      DigitsValueAppend(a, b');
      assert DigitsValue(a + b) == 10 * DigitsValue(a + b') + DigitValue(b[|b| - 1]);
      assert DigitsValue(b) == 10 * DigitsValue(b') + DigitValue(b[|b| - 1]);
      ShiftByDigit(DigitsValue(a), Pow10(|b'|), DigitsValue(b'), DigitValue(b[|b| - 1]));
    }
  }

  lemma ShiftByDigit(x: int, k: int, y: int, d: int)
    ensures 10 * (x * k + y) + d == x * (10 * k) + (10 * y + d)
  {
  }

  /** `k` decimal digits are worth less than `10^k`. */
  lemma {:induction false} DigitsValueBelow(b: string)
    requires AllDigits(b)
    ensures DigitsValue(b) < Pow10(|b|)
    decreases |b|
  {
    if b != [] {
      var b' := b[..|b| - 1];
      assert AllDigits(b') by { assert forall i :: 0 <= i < |b'| ==> b'[i] == b[i]; }
      DigitsValueBelow(b');
    }
  }

  /** Dropping the fraction digits of `a.b` leaves `a`, and `a.b` is no bigger than a double when `a` is not. */
  lemma TruncateOfFraction(a: string, b: string)
    requires AllDigits(a) && AllDigits(b)
    ensures AllDigits(a + b)
    ensures Truncate(Decimal(false, DigitsValue(a + b), -|b|)) == DigitsValue(a)
    ensures DigitsValue(a) < DoubleOverflow ==> !OverflowsDouble(Decimal(false, DigitsValue(a + b), -|b|))
  {
    DigitsValueAppend(a, b);
    DigitsValueBelow(b);
    var x, y, k := DigitsValue(a), DigitsValue(b), Pow10(|b|);
    DivisionOfScaled(x, y, k);
    if x < DoubleOverflow {
      ScaledBelow(x, y, k, DoubleOverflow);
    }
  }

  lemma DivisionOfScaled(x: nat, y: nat, k: nat)
    requires y < k
    ensures (x * k + y) / k == x
  {
    var q, r := (x * k + y) / k, (x * k + y) % k;
    assert q * k + r == x * k + y;
    assert (q - x) * k == y - r;
    MultipleWithin(q - x, k);
  }

  /** A multiple of `k` strictly between `-k` and `k` is 0. */
  lemma MultipleWithin(n: int, k: int)
    requires k > 0 && -k < n * k < k
    ensures n == 0
  {
    assert n >= 1 ==> n * k >= k;
    assert n <= -1 ==> n * k <= -k;
  }

  lemma ScaledBelow(x: nat, y: nat, k: nat, m: nat)
    requires y < k && x < m
    ensures x * k + y < m * k
  {
    assert (x + 1) * k <= m * k;
  }

  /** `(int)` of digits after whitespace and before text that does not continue them: their value, saturated. */
  lemma LeadingIntOfPaddedDigits(w: string, a: string, rest: string)
    requires AllNumericSpace(w) && |a| > 0 && AllDigits(a) && EndsNumber(rest)
    requires DigitsValue(a) < DoubleOverflow
    ensures LeadingInt(w + a + rest) == Saturate(DigitsValue(a))
  {
    assert NumericPrefix(w + a + rest) == Some(Decimal(false, DigitsValue(a), 0)) by {
      var s := w + a + rest;
      var e := |w| + |a|;
      assert s[..|w|] == w && s[|w|..e] == a && s[e..] == rest;
      IntegerShape(s, |w|, e, a);
    }
    LeadingIntOfWhole(w + a + rest, DigitsValue(a));
  }

  /** A string that reads as a whole number below `DoubleOverflow` casts to that number, saturated. */
  lemma LeadingIntOfWhole(s: string, n: nat)
    requires NumericPrefix(s) == Some(Decimal(false, n, 0)) && n < DoubleOverflow
    ensures LeadingInt(s) == Saturate(n)
  {
    assert Pow10(0) == 1;
  }

  /** A string laid out as whitespace, the digits `a` and text that does not continue them. */
  lemma IntegerShape(s: string, p: nat, e: nat, a: string)
    requires p < e <= |s| && AllNumericSpace(s[..p]) && s[p..e] == a && AllDigits(a) && EndsNumber(s[e..])
    ensures NumericPrefix(s) == Some(Decimal(false, DigitsValue(a), 0))
  {
    assert e < |s| ==> s[e] == s[e..][0];
    NumericPrefixOfInteger(s, p, e);
  }

  /** `(int)` of digits with a positive exponent: the digits times that power of ten, saturated; 0 past a double. */
  lemma LeadingIntOfExponent(a: string, mark: char, b: string, rest: string)
    requires |a| > 0 && AllDigits(a) && (mark == 'e' || mark == 'E')
    requires |b| > 0 && AllDigits(b) && (rest == [] || !IsDigit(rest[0]))
    ensures LeadingInt(a + [mark] + b + rest) ==
      var n := DigitsValue(a) * Pow10(DigitsValue(b));
      if n >= DoubleOverflow then 0 else Saturate(n)
  {
    var s := a + [mark] + b + rest;
    var e := |a| + 1 + |b|;
    assert s[..|a|] == a && s[|a|] == mark && s[|a| + 1..e] == b && s[e..] == rest;
    ExponentShape(s, |a|, e, a, b);
  }

  /** A string laid out as the digits `a`, an exponent mark, the digits `b` and no further digit. */
  lemma ExponentShape(s: string, d: nat, e: nat, a: string, b: string)
    requires 0 < d && d + 1 < e <= |s| && (s[d] == 'e' || s[d] == 'E')
    requires s[..d] == a && s[d + 1..e] == b && AllDigits(a) && AllDigits(b)
    requires e == |s| || !IsDigit(s[e])
    ensures NumericPrefix(s) == Some(Decimal(false, DigitsValue(a), DigitsValue(b)))
  {
    assert s[..0] == [] && s[0..d] == a;
    NumericPrefixOfInteger(s, 0, d);
    ExponentOfDigits(s, d, e);
  }

  /** Digits with a fraction, after whitespace and before text that does not continue them. */
  lemma NumericPrefixOfPaddedFraction(w: string, a: string, b: string, rest: string)
    requires AllNumericSpace(w) && |a| > 0 && AllDigits(a) && AllDigits(b) && EndsNumber(rest)
    ensures AllDigits(a + b)
    ensures NumericPrefix(w + a + "." + b + rest) == Some(Decimal(false, DigitsValue(a + b), -|b|))
  {
    var s := w + a + "." + b + rest;
    var d := |w| + |a|;
    var e := d + 1 + |b|;
    assert s[..|w|] == w && s[|w|..d] == a && s[d] == '.' && s[d + 1..e] == b && s[e..] == rest;
    PlainFractionShape(s, |w|, d, e, a, b);
  }

  /** A string laid out as whitespace, the digits `a`, `.`, the digits `b` and text that does not continue them. */
  lemma PlainFractionShape(s: string, p: nat, d: nat, e: nat, a: string, b: string)
    requires p < d < e <= |s| && s[d] == '.'
    requires AllNumericSpace(s[..p]) && s[p..d] == a && s[d + 1..e] == b && EndsNumber(s[e..])
    requires AllDigits(a) && AllDigits(b)
    ensures AllDigits(a + b)
    ensures NumericPrefix(s) == Some(Decimal(false, DigitsValue(a + b), -|b|))
  {
    assert e < |s| ==> s[e] == s[e..][0];
    assert ExponentValue(s, e) == 0;
    FractionShape(s, p, d, e, a, b, 0);
  }

  /** A string laid out as whitespace, the digits `a`, `.`, the digits `b` and no further digit. */
  lemma FractionShape(s: string, p: nat, d: nat, e: nat, a: string, b: string, x: int)
    requires p < d < e <= |s| && s[d] == '.'
    requires AllNumericSpace(s[..p]) && s[p..d] == a && s[d + 1..e] == b && (e == |s| || !IsDigit(s[e]))
    requires AllDigits(a) && AllDigits(b) && ExponentValue(s, e) == x
    ensures AllDigits(a + b)
    ensures NumericPrefix(s) == Some(Decimal(false, DigitsValue(a + b), x - |b|))
  {
    NumericPrefixOfFraction(s, p, d, e);
  }

  /** `(int)` of digits with a fraction, after whitespace: the integer digits, saturated. */
  lemma LeadingIntOfFraction(w: string, a: string, b: string, rest: string)
    requires AllNumericSpace(w) && |a| > 0 && AllDigits(a) && AllDigits(b) && EndsNumber(rest)
    requires DigitsValue(a) < DoubleOverflow
    ensures LeadingInt(w + a + "." + b + rest) == Saturate(DigitsValue(a))
  {
    NumericPrefixOfPaddedFraction(w, a, b, rest);
    TruncateOfFraction(a, b);
  }

  /** `(int)` of a float rendered as `a.b`: `a`, wrapped to 64 bits. */
  lemma FloatToIntOfFraction(repr: string, a: string, b: string)
    requires 0 < |a| < |repr| && repr[..|a|] == a && repr[|a|] == '.' && repr[|a| + 1..] == b
    requires AllDigits(a) && AllDigits(b)
    ensures FloatToInt(repr) == Wrap64(DigitsValue(a))
  {
    assert repr[0..|a|] == a && repr[..0] == [] && repr[|a| + 1..|repr|] == b && repr[|repr|..] == [];
    PlainFractionShape(repr, 0, |a|, |repr|, a, b);
    TruncateOfFraction(a, b);
    FloatToIntOfPrefix(repr, Decimal(false, DigitsValue(a + b), -|b|));
  }

  lemma FloatToIntOfPrefix(repr: string, d: Decimal)
    requires NumericPrefix(repr) == Some(d)
    ensures FloatToInt(repr) == Wrap64(Truncate(d))
  {
  }

  /** A string that starts with no whitespace, sign, digit or `.` has no numeric prefix. */
  lemma NoNumericPrefix(s: string)
    requires s != [] ==> !(IsNumericSpace(s[0]) || IsDigit(s[0]) || s[0] == '+' || s[0] == '-' || s[0] == '.')
    ensures NumericPrefix(s) == None
    ensures LeadingInt(s) == 0
  {
  }

  /** `mb_substr($s, 0, $n)`: the first `n` characters. */
  function MbTake(s: string, n: nat): (r: string)
    ensures |r| == if |s| <= n then |s| else n
    ensures r == s[..|r|]
  {
    if |s| <= n then s else s[..n]
  }

  /** The first index at or after `from` where `t` occurs in `s`. */
  function IndexOf(s: string, t: string, from: nat): (r: Option<nat>)
    requires from <= |s|
    ensures r.Some? ==> from <= r.value && PrefixAt(s, r.value, t)
    ensures r.Some? ==> forall q :: from <= q < r.value ==> !PrefixAt(s, q, t)
    ensures r.None? ==> forall q :: from <= q ==> !PrefixAt(s, q, t)
    decreases |s| - from
  {
    if PrefixAt(s, from, t) then Some(from)
    else if from + |t| >= |s| then
      assert forall q :: from < q ==> !PrefixAt(s, q, t);
      None
    else IndexOf(s, t, from + 1)
  }

  /** PHP's `explode($sep, $s)`: the pieces between successive occurrences of `sep`. */
  function Explode(s: string, sep: string): (pieces: seq<string>)
    requires |sep| > 0
    ensures |pieces| > 0
  {
    ExplodeFrom(s, sep, 0)
  }

  /** The pieces of `s[from..]`, found by searching `s` for `sep` from `from` on. */
  function ExplodeFrom(s: string, sep: string, from: nat): (pieces: seq<string>)
    requires |sep| > 0 && from <= |s|
    ensures |pieces| > 0
    decreases |s| - from
  {
    match IndexOf(s, sep, from)
    case None => [s[from..]]
    case Some(i) => [s[from..i]] + ExplodeFrom(s, sep, i + |sep|)
  }

  function Last<T>(xs: seq<T>): T
    requires |xs| > 0
  {
    xs[|xs| - 1]
  }
}
