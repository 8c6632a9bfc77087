/**
 * The few Python string operations the classifier applies to OSM tag values:
 * `str.strip()`, `str.lower()`, `str.split()[0]` and `float(...)`.
 */
module Text {
  import opened Wrappers

  /** The characters for which Python's `str.isspace()` holds; `split()` and `strip()`
      without arguments cut at exactly these. */
  predicate IsSpace(c: char) {
    || ('\t' <= c <= '\r')
    || ('\U{1C}' <= c <= ' ')
    || c == '\U{85}' || c == '\U{A0}' || c == '\U{1680}'
    || ('\U{2000}' <= c <= '\U{200A}')
    || c == '\U{2028}' || c == '\U{2029}' || c == '\U{202F}' || c == '\U{205F}'
    || c == '\U{3000}'
  }

  predicate AllSpace(s: string) {
    forall i :: 0 <= i < |s| ==> IsSpace(s[i])
  }

  predicate NoSpace(s: string) {
    forall i :: 0 <= i < |s| ==> !IsSpace(s[i])
  }

  /** `s.lstrip()`: drops the leading whitespace and nothing else. */
  function TrimStart(s: string): (r: string)
    ensures |r| <= |s| && r == s[|s| - |r|..]
    ensures AllSpace(s[..|s| - |r|])
    ensures r == [] || !IsSpace(r[0])
  {
    if s == [] || !IsSpace(s[0]) then s else TrimStart(s[1..])
  }

  /** `s.rstrip()`: drops the trailing whitespace and nothing else. */
  function TrimEnd(s: string): (r: string)
    ensures |r| <= |s| && r == s[..|r|]
    ensures AllSpace(s[|r|..])
    ensures r == [] || !IsSpace(r[|r| - 1])
  {
    if s == [] || !IsSpace(s[|s| - 1]) then
      assert s[|s|..] == [];
      s
    else
      var r := TrimEnd(s[..|s| - 1]);
      assert s[..|s| - 1][|r|..] == s[|r|..|s| - 1];
      assert forall i :: |r| <= i < |s| - 1 ==> s[i] == s[|r|..|s| - 1][i - |r|];
      r
  }

  /** The number of whitespace characters `s` starts with. */
  function LeadingSpace(s: string): (n: nat)
    ensures n <= |s| && AllSpace(s[..n]) && (n == |s| || !IsSpace(s[n]))
  {
    var t := TrimStart(s);
    assert t == [] || s[|s| - |t|] == t[0];
    |s| - |t|
  }

  /** `s.strip()`. */
  function Strip(s: string): (r: string)
    ensures |r| <= |s|
    ensures r == [] || (!IsSpace(r[0]) && !IsSpace(r[|r| - 1]))
  {
    var t := TrimStart(s);
    var r := TrimEnd(t);
    assert r == [] || r[0] == t[0];
    r
  }

  /** What `strip()` keeps is the slice of `s` that starts after the leading
      whitespace. */
  lemma StripSlice(s: string)
    ensures LeadingSpace(s) + |Strip(s)| <= |s|
    ensures Strip(s) == s[LeadingSpace(s)..LeadingSpace(s) + |Strip(s)|]
  {
    PrefixOfSuffix(s, TrimStart(s), LeadingSpace(s), Strip(s));
  }

  lemma PrefixOfSuffix(s: string, t: string, a: nat, r: string)
    requires a + |r| <= |s| && t == s[a..] && r == t[..|r|]
    ensures r == s[a..a + |r|]
  {
    Slices(s, a, |r|);
  }

  /** What `strip()` drops after the kept slice is whitespace only; what it drops
      before it is `LeadingSpace`'s. */
  lemma StripMargins(s: string)
    ensures LeadingSpace(s) + |Strip(s)| <= |s|
    ensures AllSpace(s[LeadingSpace(s) + |Strip(s)|..])
  {
    SpaceAfter(s, TrimStart(s), LeadingSpace(s), |Strip(s)|);
  }

  lemma SpaceAfter(s: string, t: string, a: nat, n: nat)
    requires a + n <= |s| && t == s[a..] && AllSpace(t[n..])
    ensures AllSpace(s[a + n..])
  {
    Slices(s, a, n);
  }

  /** Slicing a suffix is slicing the whole. */
  lemma Slices(s: string, a: nat, n: nat)
    requires a + n <= |s|
    ensures s[a..][..n] == s[a..a + n] && s[a..][n..] == s[a + n..]
  {
  }

  /** Stripping leaves nothing exactly when everything is whitespace. */
  lemma StripEmpty(s: string)
    ensures Strip(s) == [] <==> AllSpace(s)
  {
    var t := TrimStart(s);
    TrimStartEmpty(s);
    if t != [] {
      assert TrimEnd(t)[0] == t[0];
    }
  }

  lemma {:induction false} TrimStartEmpty(s: string)
    ensures TrimStart(s) == [] <==> AllSpace(s)
  {
    if s != [] && IsSpace(s[0]) {
      TrimStartEmpty(s[1..]);
      assert AllSpace(s) <==> AllSpace(s[1..]) by {
        assert forall i :: 1 <= i < |s| ==> s[i] == s[1..][i - 1];
      }
    }
  }

  predicate IsUpper(c: char) {
    'A' <= c <= 'Z'
  }

  /** Lower-casing of one character; only the ASCII letters are mapped. */
  function LowerChar(c: char): (r: char)
    ensures !IsUpper(r)
    ensures !IsUpper(c) ==> r == c
    ensures IsUpper(c) ==> 'a' <= r <= 'z' && r as int - 'a' as int == c as int - 'A' as int
    ensures IsSpace(r) <==> IsSpace(c)
  {
    if IsUpper(c) then (c as int + 32) as char else c
  }

  /** `s.lower()`, restricted to ASCII letters. */
  function Lower(s: string): (r: string)
    ensures |r| == |s|
    ensures forall i :: 0 <= i < |s| ==> r[i] == LowerChar(s[i])
    ensures forall i :: 0 <= i < |r| ==> !IsUpper(r[i])
    ensures forall i :: 0 <= i < |r| ==> (IsSpace(r[i]) <==> IsSpace(s[i]))
  {
    seq(|s|, i requires 0 <= i < |s| => LowerChar(s[i]))
  }

  /** `s.strip().lower()`, the clean-up applied to a building tag. */
  function Normalize(s: string): (r: string)
    ensures |r| <= |s|
  {
    Lower(Strip(s))
  }

  lemma {:induction false} TrimStartNoop(s: string)
    requires s == [] || !IsSpace(s[0])
    ensures TrimStart(s) == s
  {
  }

  lemma {:induction false} TrimEndNoop(s: string)
    requires s == [] || !IsSpace(s[|s| - 1])
    ensures TrimEnd(s) == s
  {
  }

  lemma {:induction false} LowerNoop(s: string)
    requires forall i :: 0 <= i < |s| ==> !IsUpper(s[i])
    ensures Lower(s) == s
  {
  }

  /** A cleaned-up value: no surrounding whitespace and no upper-case letter. */
  predicate IsNormal(s: string) {
    && (s == [] || (!IsSpace(s[0]) && !IsSpace(s[|s| - 1])))
    && (forall i :: 0 <= i < |s| ==> !IsUpper(s[i]))
  }

  lemma NormalizeIsNormal(s: string)
    ensures IsNormal(Normalize(s))
  {
    var t := Strip(s);
    var r := Lower(t);
    if r != [] {
      assert !IsSpace(t[0]) && !IsSpace(t[|t| - 1]);
      assert IsSpace(r[0]) <==> IsSpace(t[0]);
      assert IsSpace(r[|r| - 1]) <==> IsSpace(t[|t| - 1]);
    }
  }

  /** Cleaning up a value that is already clean changes nothing. */
  lemma {:induction false} NormalIsFixed(s: string)
    requires IsNormal(s)
    ensures Normalize(s) == s
  {
    TrimStartNoop(s);
    TrimEndNoop(s);
    LowerNoop(s);
  }

  /** Cleaning a tag value twice changes nothing more than cleaning it once. */
  lemma {:induction false} NormalizeIdempotent(s: string)
    ensures Normalize(Normalize(s)) == Normalize(s)
  {
    NormalizeIsNormal(s);
    NormalIsFixed(Normalize(s));
  }

  /** The longest prefix of `t` that holds no whitespace. */
  function TakeWord(t: string): (r: string)
    ensures |r| <= |t| && r == t[..|r|]
    ensures NoSpace(r)
    ensures |r| == |t| || IsSpace(t[|r|])
  {
    if t == [] || IsSpace(t[0]) then [] else [t[0]] + TakeWord(t[1..])
  }

  /** `s.split()[0]`: the first whitespace-delimited token, or None where Python
      raises IndexError because the split list is empty. */
  function FirstToken(s: string): (r: Option<string>)
    ensures r.None? <==> AllSpace(s)
    ensures r.Some? ==> r.value != [] && NoSpace(r.value)
    ensures r.Some? ==> var t := TrimStart(s);
      |r.value| <= |t| && r.value == t[..|r.value|] && (|r.value| == |t| || IsSpace(t[|r.value|]))
  {
    var t := TrimStart(s);
    if t == [] then
      assert s == s[..|s| - |t|];
      None
    else
      assert s[|s| - |t|] == t[0];
      Some(TakeWord(t))
  }

  /** A word with nothing or whitespace after it is the first token. */
  lemma FirstTokenOfWord(w: string, rest: string)
    requires w != [] && NoSpace(w)
    requires rest == [] || IsSpace(rest[0])
    ensures FirstToken(w + rest) == Some(w)
  {
    var s := w + rest;
    assert s[0] == w[0];
    assert TrimStart(s) == s;
    var r := FirstToken(s);
    assert r.Some?;
    assert forall k :: 0 <= k < |w| ==> s[k] == w[k] && !IsSpace(s[k]);
    assert |w| < |s| ==> IsSpace(s[|w|]);
    assert |r.value| == |w|;
    assert r.value == s[..|w|] == w;
  }

  predicate IsDigit(c: char) {
    '0' <= c <= '9'
  }

  predicate AllDigits(s: string) {
    forall i :: 0 <= i < |s| ==> IsDigit(s[i])
  }

  function DigitValue(c: char): (d: nat)
    requires IsDigit(c)
    ensures d < 10
  {
    c as int - '0' as int
  }

  /** The value of a string of decimal digits, most significant first. */
  function DigitsValue(s: string): nat
    requires AllDigits(s)
  {
    if s == [] then 0 else 10 * DigitsValue(s[..|s| - 1]) + DigitValue(s[|s| - 1])
  }

  /** The value of the digits after a decimal point. */
  function FractionValue(s: string): (r: real)
    requires AllDigits(s)
    ensures 0.0 <= r < 1.0
  {
    if s == [] then 0.0 else (DigitValue(s[0]) as real + FractionValue(s[1..])) / 10.0
  }

  /** Index of the first '.' in `t`, or |t| when there is none. */
  function DotIndex(t: string): (k: nat)
    ensures k <= |t|
    ensures forall i :: 0 <= i < k ==> t[i] != '.'
    ensures k < |t| ==> t[k] == '.'
  {
    if t == [] || t[0] == '.' then 0 else 1 + DotIndex(t[1..])
  }

  /** The value of a numeral split at its point: both parts digits, at least one digit. */
  function ReadParts(whole: string, fraction: string): (r: Option<real>)
    ensures r.Some? ==> r.value >= 0.0
    ensures r.Some? ==> (whole != [] && IsDigit(whole[0])) || (fraction != [] && IsDigit(fraction[0]))
  {
    if AllDigits(whole) && AllDigits(fraction) && |whole| + |fraction| > 0 then
      Some(DigitsValue(whole) as real + FractionValue(fraction))
    else
      None
  }

  /** An unsigned decimal numeral: digits, an optional point, digits, at least one digit. */
  function ParseUnsigned(t: string): (r: Option<real>)
    ensures r.Some? ==> r.value >= 0.0
    ensures r.Some? ==> exists i :: 0 <= i < |t| && IsDigit(t[i])
  {
    var k := DotIndex(t);
    var whole := t[..k];
    var fraction := if k < |t| then t[k + 1..] else [];
    assert whole != [] ==> whole[0] == t[0];
    assert fraction != [] ==> fraction[0] == t[k + 1];
    ReadParts(whole, fraction)
  }

  lemma FirstDotAfterDigits(t: string, j: nat)
    requires j < |t| && t[j] == '.' && AllDigits(t[..j])
    ensures DotIndex(t) == j
  {
    assert forall i :: 0 <= i < j ==> t[..j][i] == t[i];
  }

  /** Digits with no point read as their integer value. */
  lemma WholeValue(w: string)
    requires w != [] && AllDigits(w)
    ensures ParseUnsigned(w) == Some(DigitsValue(w) as real)
  {
    assert forall i :: 0 <= i < |w| ==> w[i] != '.';
    assert DotIndex(w) == |w| && w[..|w|] == w;
  }

  /** Digits, a point and digits read as the whole part plus the fraction. */
  lemma DecimalValue(w: string, f: string)
    requires AllDigits(w) && AllDigits(f) && |w| + |f| > 0
    ensures ParseUnsigned(w + "." + f) == Some(DigitsValue(w) as real + FractionValue(f))
  {
    var t := w + "." + f;
    SplitAtPoint(w, f, t);
    ParseAtPoint(t, w, f);
  }

  lemma ParseAtPoint(t: string, w: string, f: string)
    requires AllDigits(w) && AllDigits(f) && |w| + |f| > 0 && |w| < |t|
    requires DotIndex(t) == |w| && t[..|w|] == w && t[|w| + 1..] == f
    ensures ParseUnsigned(t) == Some(DigitsValue(w) as real + FractionValue(f))
  {
    assert ParseUnsigned(t) == ReadParts(w, f);
  }

  lemma SplitAtPoint(w: string, f: string, t: string)
    requires AllDigits(w) && t == w + "." + f
    ensures DotIndex(t) == |w| && t[..|w|] == w && t[|w| + 1..] == f
  {
    assert t[..|w|] == w && t[|w| + 1..] == f;
    FirstDotAfterDigits(t, |w|);
  }

  /** Python's `float(token)` on a token without whitespace, restricted to an optional
      sign followed by a decimal numeral; every other token is the ValueError case. */
  function ParseNumber(token: string): (r: Option<real>)
    ensures r.Some? ==> exists i :: 0 <= i < |token| && IsDigit(token[i])
    ensures token != [] && token[0] == '-' ==>
      r == (match ParseUnsigned(token[1..]) case Some(v) => Some(-v) case None => None)
    ensures token != [] && token[0] == '+' ==> r == ParseUnsigned(token[1..])
    ensures token == [] || (token[0] != '-' && token[0] != '+') ==> r == ParseUnsigned(token)
  {
    if token != [] && token[0] == '-' then
      match ParseUnsigned(token[1..])
      case Some(v) => Some(-v)
      case None => None
    else if token != [] && token[0] == '+' then
      ParseUnsigned(token[1..])
    else
      ParseUnsigned(token)
  }

  /** Only the two numeral forms parse: a run of digits, or digits, one point and
      digits with at least one digit in all. */
  lemma UnsignedForms(t: string)
    requires ParseUnsigned(t).Some?
    ensures || (t != [] && AllDigits(t))
            || (exists w, f :: t == w + "." + f && AllDigits(w) && AllDigits(f) && |w| + |f| > 0)
  {
    var k := DotIndex(t);
    if k < |t| {
      var w, f := t[..k], t[k + 1..];
      assert t == w + "." + f;
    } else {
      assert t[..k] == t;
    }
  }

  /** Decimal representation of a natural number, without leading zeros. */
  function NatString(n: nat): (s: string)
    ensures s != [] && AllDigits(s)
  {
    if n < 10 then [('0' as int + n) as char]
    else NatString(n / 10) + [('0' as int + n % 10) as char]
  }

  lemma {:induction false} NatStringValue(n: nat)
    ensures DigitsValue(NatString(n)) == n
  {
    if n >= 10 {
      NatStringValue(n / 10);
      var s := NatString(n);
      assert s[..|s| - 1] == NatString(n / 10);
    }
  }

  /** Reading back a printed whole number gives that number. */
  lemma {:induction false} ParseNatString(n: nat)
    ensures ParseNumber(NatString(n)) == Some(n as real)
  {
    var s := NatString(n);
    NatStringValue(n);
    WholeValue(s);
    assert IsDigit(s[0]);
  }

  /** A sign in front of a numeral negates it, or leaves it as it is. */
  lemma {:induction false} ParseSigned(t: string)
    requires t == [] || (t[0] != '-' && t[0] != '+')
    ensures ParseNumber("-" + t) == (match ParseNumber(t) case Some(v) => Some(-v) case None => None)
    ensures ParseNumber("+" + t) == ParseNumber(t)
  {
    MinusSign(t);
    PlusSign(t);
  }

  lemma MinusSign(t: string)
    requires t == [] || (t[0] != '-' && t[0] != '+')
    ensures ParseNumber("-" + t) == (match ParseNumber(t) case Some(v) => Some(-v) case None => None)
  {
    var minus := "-" + t;
    assert minus[0] == '-' && minus[1..] == t;
  }

  lemma PlusSign(t: string)
    requires t == [] || (t[0] != '-' && t[0] != '+')
    ensures ParseNumber("+" + t) == ParseNumber(t)
  {
    var plus := "+" + t;
    assert plus[0] == '+' && plus[1..] == t;
  }
}
