/** The two ECMAScript string operations the screens use on user input:
    String.prototype.trim (ECMA-262, section 22.1.3.32), for the blank-name
    check of the meal search, and parseInt with radix 10 (ECMA-262, section
    19.2.5), for the numeric fields of the planner form. Strings are sequences
    of code points; every character skipped below lies in the Basic
    Multilingual Plane, so this agrees with ECMAScript's UTF-16 code units. */
module EcmaScript {

  /** WhiteSpace or LineTerminator (ECMA-262, sections 12.2 and 12.3): the
      characters trim removes and parseInt skips. */
  predicate IsWhiteSpace(c: char)
  {
    c == '\t' || c == '\U{000B}' || c == '\U{000C}' || c == ' ' || c == '\U{00A0}' || c == '\U{FEFF}'
    || c == '\U{1680}' || ('\U{2000}' <= c <= '\U{200A}') || c == '\U{202F}' || c == '\U{205F}'
    || c == '\U{3000}'
    || c == '\n' || c == '\r' || c == '\U{2028}' || c == '\U{2029}'
  }

  predicate IsBlank(s: string)
  {
    forall i :: 0 <= i < |s| ==> IsWhiteSpace(s[i])
  }

  /** Drops the leading white space: the result is the longest suffix of `s`
      that does not start with white space. */
  function TrimStart(s: string): (r: string)
    ensures |r| <= |s| && r == s[|s| - |r|..]
    ensures forall i :: 0 <= i < |s| - |r| ==> IsWhiteSpace(s[i])
    ensures r == [] || !IsWhiteSpace(r[0])
  {
    if s != [] && IsWhiteSpace(s[0]) then TrimStart(s[1..]) else s
  }

  /** Drops the trailing white space: the result is the longest prefix of `s`
      that does not end with white space. */
  function TrimEnd(s: string): (r: string)
    ensures |r| <= |s| && r == s[..|r|]
    ensures forall i :: |r| <= i < |s| ==> IsWhiteSpace(s[i])
    ensures r == [] || !IsWhiteSpace(r[|r| - 1])
  {
    if s != [] && IsWhiteSpace(s[|s| - 1]) then TrimEnd(s[..|s| - 1]) else s
  }

  /** `r` is the slice of `s` that starts at `k` and has a blank prefix
      and a blank suffix around it. */
  predicate TrimmedAt(s: string, k: int, r: string)
  {
    0 <= k && k + |r| <= |s| && r == s[k..k + |r|] && IsBlank(s[..k]) && IsBlank(s[k + |r|..])
  }

  /** `s.trim()`: white space removed from both ends. The result is a slice
      of `s` between a blank prefix and a blank suffix, it neither starts nor
      ends with white space, and it is empty exactly when `s` consists of
      white space only. */
  function Trim(s: string): (r: string)
    ensures |r| <= |s|
    ensures exists k :: TrimmedAt(s, k, r)
    ensures r == [] || (!IsWhiteSpace(r[0]) && !IsWhiteSpace(r[|r| - 1]))
    ensures r == [] <==> IsBlank(s)
  {
    var t := TrimStart(s);
    var r := TrimEnd(t);
    SliceBetweenBlanks(s, t, r);
    TrimOfBlank(s);
    assert TrimmedAt(s, |s| - |t|, r);
    r
  }

  /** A suffix `t` of `s` after white space only, and a prefix `r` of `t`
      before white space only: `r` lies between a blank prefix and a blank
      suffix of `s`. */
  lemma {:induction false} SliceBetweenBlanks(s: string, t: string, r: string)
    requires |t| <= |s| && t == s[|s| - |t|..]
    requires forall i :: 0 <= i < |s| - |t| ==> IsWhiteSpace(s[i])
    requires |r| <= |t| && r == t[..|r|]
    requires forall i :: |r| <= i < |t| ==> IsWhiteSpace(t[i])
    ensures TrimmedAt(s, |s| - |t|, r)
  {
    var k := |s| - |t|;
    assert r == s[k..k + |r|];
    var p := s[..k];
    assert IsBlank(p) by {
      forall i | 0 <= i < |p| ensures IsWhiteSpace(p[i]) {
        assert p[i] == s[i];
      }
    }
    var q := s[k + |r|..];
    assert IsBlank(q) by {
      forall i | 0 <= i < |q| ensures IsWhiteSpace(q[i]) {
        assert q[i] == t[|r| + i];
      }
    }
  }

  /** Trimming leaves nothing exactly when `s` is blank. */
  lemma TrimOfBlank(s: string)
    ensures TrimEnd(TrimStart(s)) == [] <==> IsBlank(s)
  {
    var t := TrimStart(s);
    var r := TrimEnd(t);
    assert s == s[..|s| - |t|] + t;
    assert r == [] ==> t == t[|r|..];
  }

  predicate IsDigit(c: char)
  {
    '0' <= c <= '9'
  }

  predicate AllDigits(s: string)
  {
    forall i :: 0 <= i < |s| ==> IsDigit(s[i])
  }

  /** The longest prefix of `s` made of decimal digits. */
  function LeadingDigits(s: string): (d: string)
    ensures |d| <= |s| && d == s[..|d|] && AllDigits(d)
    ensures |d| == |s| || !IsDigit(s[|d|])
  {
    if s != [] && IsDigit(s[0]) then [s[0]] + LeadingDigits(s[1..]) else []
  }

  /** 10 to the power `k`. */
  function Pow10(k: nat): (p: nat)
    ensures p >= 1
  {
    if k == 0 then 1 else 10 * Pow10(k - 1)
  }

  /** The base-10 value of a string of digits, most significant digit first. */
  function DigitsValue(d: string): nat
    requires AllDigits(d)
  {
    if d == [] then 0 else DigitsValue(d[..|d| - 1]) * 10 + ((d[|d| - 1] as int) - ('0' as int))
  }

  /** The value of `d` fits in as many digits as `d` has, and needs all of
      them when `d` does not start with a zero. */
  lemma {:induction false} DigitsValueBounds(d: string)
    requires AllDigits(d)
    ensures DigitsValue(d) < Pow10(|d|)
    ensures d != [] && d[0] != '0' ==> Pow10(|d| - 1) <= DigitsValue(d)
  {
    if d != [] {
      var p := d[..|d| - 1];
      var last := (d[|d| - 1] as int) - ('0' as int);
      DigitsValueBounds(p);
      assert DigitsValue(d) == DigitsValue(p) * 10 + last;
      assert 0 <= last < 10;
      assert Pow10(|d|) == 10 * Pow10(|p|);
      if p != [] && d[0] != '0' {
        assert p[0] == d[0];
        assert Pow10(|d| - 1) == 10 * Pow10(|p| - 1);
      }
    }
  }

  /** The result of parseInt: NaN, or an integral Number. parseInt returns -0
      for a negative sign followed by zeros; -0 and +0 are both 0 here. */
  datatype ParsedNumber = NaN | Int(value: int)

  /** `parseInt(s, 10)`: skip leading white space, read one optional sign,
      then the longest run of decimal digits; NaN when that run is empty.
      Whatever follows the digits is ignored, and with radix 10 a "0x" prefix
      is not special. */
  function ParseInt(s: string): (r: ParsedNumber)
    ensures IsBlank(s) ==> r == NaN
    ensures r.Int? && r.value < 0 ==> TrimStart(s)[0] == '-'
  {
    ParseSigned(TrimStart(s))
  }

  /** The text after one optional sign. */
  function Unsigned(t: string): string
  {
    if t != [] && (t[0] == '-' || t[0] == '+') then t[1..] else t
  }

  /** One optional sign, then the digits: NaN exactly when no digit follows
      the sign, and negative only after a minus sign. */
  function ParseSigned(t: string): (r: ParsedNumber)
    ensures r == NaN <==> var u := Unsigned(t); u == [] || !IsDigit(u[0])
    ensures r.Int? && r.value < 0 ==> t[0] == '-'
  {
    if t != [] && t[0] == '-' then Negate(ReadDigits(t[1..]))
    else if t != [] && t[0] == '+' then ReadDigits(t[1..])
    else ReadDigits(t)
  }

  /** The value of the leading run of digits, NaN when there is none. */
  function ReadDigits(u: string): (r: ParsedNumber)
    ensures r == NaN <==> u == [] || !IsDigit(u[0])
    ensures r.Int? ==> r.value >= 0
  {
    var z := LeadingDigits(u);
    if z == [] then NaN else Int(DigitsValue(z))
  }

  /** Unary minus on the parsed value: NaN stays NaN, and a value is
      replaced by its opposite. */
  function Negate(p: ParsedNumber): (r: ParsedNumber)
    ensures r.NaN? <==> p.NaN?
    ensures r.Int? ==> r.value + p.value == 0
  {
    match p
    case NaN => NaN
    case Int(v) => Int(0 - v)
  }

  function DigitChar(k: nat): (c: char)
    requires k < 10
    ensures IsDigit(c) && (c as int) - ('0' as int) == k
  {
    ('0' as int + k) as char
  }

  /** The decimal digits of `n` without leading zeros; reading them back
      yields `n`. */
  function NatDigits(n: nat): (d: string)
    ensures d != [] && AllDigits(d)
    ensures DigitsValue(d) == n
    ensures d[0] != '0' || n == 0
  {
    if n < 10 then [DigitChar(n)]
    else
      var p := NatDigits(n / 10);
      var d := p + [DigitChar(n % 10)];
      assert d[..|d| - 1] == p;
      d
  }

  /** `String(n)` for an integer `n`: a minus sign for negatives, then the
      digits. This is what `String` writes below 10^21 in magnitude; from
      there on it switches to exponent notation, which is not modelled. */
  function Decimal(n: int): string
  {
    if n < 0 then "-" + NatDigits(-n) else NatDigits(n)
  }

  /** Digits followed by anything that does not start with a digit: the
      digits are the leading run. */
  lemma {:induction false} LeadingDigitsOfDigits(d: string, t: string)
    requires AllDigits(d)
    requires t == [] || !IsDigit(t[0])
    ensures LeadingDigits(d + t) == d
  {
    if d != [] {
      assert (d + t)[1..] == d[1..] + t;
      LeadingDigitsOfDigits(d[1..], t);
      assert d == [d[0]] + d[1..];
    }
  }

  /** parseInt reads back what String(n) writes, and ignores anything after
      the digits that does not itself start with a digit. */
  lemma ParseIntOfDecimal(n: int, t: string)
    requires t == [] || !IsDigit(t[0])
    ensures ParseInt(Decimal(n) + t) == Int(n)
  {
    NotWhiteSpaceStart(Decimal(n) + t);
    if n < 0 {
      NegativeDecimal(n, t);
      ParseSignedNegative(NatDigits(-n), t);
    } else {
      ReadDigitsOfDigits(NatDigits(n), t);
    }
  }

  /** The text of a negative number: a minus sign, then the digits of its magnitude. */
  lemma NegativeDecimal(n: int, t: string)
    requires n < 0
    ensures Decimal(n) + t == ['-'] + (NatDigits(-n) + t)
  {
  }

  /** A minus sign, then digits: the negated value of the digits. */
  lemma ParseSignedNegative(d: string, t: string)
    requires d != [] && AllDigits(d)
    requires t == [] || !IsDigit(t[0])
    ensures ParseSigned(['-'] + (d + t)) == Int(0 - DigitsValue(d))
  {
    var x := ['-'] + (d + t);
    assert x[0] == '-' && x[1..] == d + t;
    ReadDigitsOfDigits(d, t);
    assert ParseSigned(x) == Negate(ReadDigits(d + t));
  }

  /** Any run of digits, leading zeros included, followed by anything that
      does not start with a digit: parseInt gives the run's base-10 value. */
  lemma ParseIntOfDigits(d: string, t: string)
    requires d != [] && AllDigits(d)
    requires t == [] || !IsDigit(t[0])
    ensures ParseInt(d + t) == Int(DigitsValue(d))
  {
    NotWhiteSpaceStart(d + t);
    ReadDigitsOfDigits(d, t);
  }

  /** The same after a minus sign: the negated value of the run. */
  lemma ParseIntOfNegativeDigits(d: string, t: string)
    requires d != [] && AllDigits(d)
    requires t == [] || !IsDigit(t[0])
    ensures ParseInt(['-'] + (d + t)) == Int(0 - DigitsValue(d))
  {
    NotWhiteSpaceStart(['-'] + (d + t));
    ParseSignedNegative(d, t);
  }

  /** The same after a plus sign: the value of the run itself. */
  lemma ParseIntOfPlusDigits(d: string, t: string)
    requires d != [] && AllDigits(d)
    requires t == [] || !IsDigit(t[0])
    ensures ParseInt(['+'] + (d + t)) == Int(DigitsValue(d))
  {
    var x := ['+'] + (d + t);
    assert !IsWhiteSpace(x[0]);
    assert TrimStart(x) == x;
    assert x[0] == '+' && x[1..] == d + t;
    ReadDigitsOfDigits(d, t);
    assert ParseSigned(x) == ReadDigits(d + t);
  }

  /** Digits followed by anything that does not start with a digit are read
      as the value of those digits. */
  lemma ReadDigitsOfDigits(d: string, t: string)
    requires d != [] && AllDigits(d)
    requires t == [] || !IsDigit(t[0])
    ensures ReadDigits(d + t) == Int(DigitsValue(d))
  {
    LeadingDigitsOfDigits(d, t);
  }

  /** Text starting with a sign or a digit has no white space to skip. */
  lemma NotWhiteSpaceStart(s: string)
    requires s != [] && (s[0] == '-' || IsDigit(s[0]))
    ensures TrimStart(s) == s
  {
    assert !IsWhiteSpace(s[0]);
  }

  /** Leading white space does not change what parseInt reads. */
  lemma {:induction false} ParseIntSkipsWhiteSpace(w: string, s: string)
    requires IsBlank(w)
    ensures ParseInt(w + s) == ParseInt(s)
  {
    TrimStartSkipsBlank(w, s);
  }

  lemma {:induction false} TrimStartSkipsBlank(w: string, s: string)
    requires IsBlank(w)
    ensures TrimStart(w + s) == TrimStart(s)
  {
    if w == [] {
      assert w + s == s;
    } else {
      assert (w + s)[0] == w[0];
      assert (w + s)[1..] == w[1..] + s;
      TrimStartSkipsBlank(w[1..], s);
    }
  }

  /** A string without any decimal digit parses to NaN: this covers the empty
      string, a lone sign and text that is not numeric at all. */
  lemma ParseIntWithoutDigits(s: string)
    requires forall i :: 0 <= i < |s| ==> !IsDigit(s[i])
    ensures ParseInt(s) == NaN
  {
  }
}
