/** The pieces of JavaScript's own semantics that the server code leans on:
    optional values (`undefined`), truthiness and `||` on strings, the white
    space recognised by `String.prototype.trim` and by the regular-expression
    class `\s`, `parseInt` without a radix, and `String(n)` on an integer. */
module Js {

  datatype Option<+T> = None | Some(value: T)

  /** A possibly-undefined string is truthy when it is present and not "". */
  predicate Truthy(s: Option<string>) {
    s.Some? && s.value != ""
  }

  /** `a || b` on two possibly-undefined strings. */
  function Or(a: Option<string>, b: Option<string>): Option<string> {
    if Truthy(a) then a else b
  }

  /** `a || null`: a falsy value is stored as null. */
  function NullIfFalsy(a: Option<string>): (r: Option<string>)
    ensures r.Some? ==> r == a && r.value != ""
    ensures Truthy(a) ==> r == a
  {
    if Truthy(a) then a else None
  }

  /** WhiteSpace and LineTerminator code points (ECMA-262, sections 12.2 and
      12.3): what `trim()` removes and what `\s` matches. */
  predicate IsSpace(c: char) {
    || c == '\t' || c == '\n' || c == '\U{000B}' || c == '\U{000C}' || c == '\r'
    || c == ' ' || c == '\U{00A0}' || c == '\U{1680}'
    || ('\U{2000}' <= c <= '\U{200A}')
    || c == '\U{2028}' || c == '\U{2029}' || c == '\U{202F}' || c == '\U{205F}'
    || c == '\U{3000}' || c == '\U{FEFF}'
  }

  predicate NoSpace(s: string) {
    forall i :: 0 <= i < |s| ==> !IsSpace(s[i])
  }

  predicate AllSpace(s: string) {
    forall i :: 0 <= i < |s| ==> IsSpace(s[i])
  }

  lemma NoSpaceConcat(a: string, b: string)
    requires NoSpace(a) && NoSpace(b)
    ensures NoSpace(a + b)
  {
    forall i | 0 <= i < |a + b|
      ensures !IsSpace((a + b)[i])
    {
      if i >= |a| {
        assert (a + b)[i] == b[i - |a|];
      }
    }
  }

  /** `s.trimStart()`: the suffix of `s` that starts at its first non-space. */
  function TrimStart(s: string): (r: string)
    ensures |r| <= |s|
    ensures r == [] || !IsSpace(r[0])
  {
    if s != [] && IsSpace(s[0]) then TrimStart(s[1..]) else s
  }

  /** What `trimStart` removes is a prefix made of white space only. */
  lemma {:induction false} TrimStartSuffix(s: string)
    ensures TrimStart(s) == s[|s| - |TrimStart(s)|..]
    ensures AllSpace(s[..|s| - |TrimStart(s)|])
    decreases |s|
  {
    if s != [] && IsSpace(s[0]) {
      TrimStartSuffix(s[1..]);
      var k := |s| - |TrimStart(s)|;
      assert s[1..][k - 1..] == s[k..];
      forall i | 0 <= i < k
        ensures IsSpace(s[..k][i])
      {
        if i > 0 {
          assert s[..k][i] == s[1..][..k - 1][i - 1];
        }
      }
    }
  }

  /** `s.trimEnd()`: the prefix of `s` that ends at its last non-space. */
  function TrimEnd(s: string): (r: string)
    ensures |r| <= |s| && r == s[..|r|]
    ensures r == [] || !IsSpace(r[|r| - 1])
    ensures forall i :: |r| <= i < |s| ==> IsSpace(s[i])
  {
    if s != [] && IsSpace(s[|s| - 1]) then TrimEnd(s[..|s| - 1]) else s
  }

  /** `s.trim()`: a run of the input with no white space at either end,
      empty exactly when the input is all white space. */
  function Trim(s: string): (r: string)
    ensures |r| <= |s|
    ensures r == [] || (!IsSpace(r[0]) && !IsSpace(r[|r| - 1]))
    ensures r == [] <==> AllSpace(s)
  {
    var t := TrimStart(s);
    TrimStartSuffix(s);
    assert AllSpace(s) ==> t == [];
    assert t != [] ==> !IsSpace(s[|s| - |t|]);
    TrimEnd(t)
  }

  /** `trimStart` gives "" only on a string made of white space. */
  lemma TrimStartEmpty(s: string)
    requires TrimStart(s) == []
    ensures AllSpace(s)
  {
    TrimStartSuffix(s);
    assert s[..|s|] == s;
  }

  /** `trimStart` keeps the last character when it keeps anything. */
  lemma TrimStartLast(s: string)
    requires TrimStart(s) != []
    ensures TrimStart(s)[|TrimStart(s)| - 1] == s[|s| - 1]
  {
    TrimStartSuffix(s);
  }

  /** Leading white space before a string that does not start with white
      space is exactly what `trimStart` removes. */
  lemma {:induction false} TrimStartAllSpace(w: string, b: string)
    requires AllSpace(w)
    requires b == [] || !IsSpace(b[0])
    ensures TrimStart(w + b) == b
    decreases |w|
  {
    if w != [] {
      assert (w + b)[1..] == w[1..] + b;
      TrimStartAllSpace(w[1..], b);
    }
  }

  /** Once `trimStart` stops inside `a`, what follows `a` is kept as it is. */
  lemma {:induction false} TrimStartAppend(a: string, b: string)
    requires TrimStart(a) != []
    ensures TrimStart(a + b) == TrimStart(a) + b
    decreases |a|
  {
    var ab := a + b;
    assert ab[0] == a[0];
    if IsSpace(a[0]) {
      assert ab[1..] == a[1..] + b;
      assert TrimStart(a) == TrimStart(a[1..]);
      TrimStartAppend(a[1..], b);
      assert TrimStart(ab) == TrimStart(ab[1..]);
    } else {
      assert TrimStart(a) == a;
      assert TrimStart(ab) == ab;
    }
  }

  /** Trailing white space after a string that does not end with white space
      is exactly what `trimEnd` removes. */
  lemma {:induction false} TrimEndAllSpace(b: string, w: string)
    requires AllSpace(w)
    requires b == [] || !IsSpace(b[|b| - 1])
    ensures TrimEnd(b + w) == b
    decreases |w|
  {
    if w != [] {
      assert (b + w)[..|b + w| - 1] == b + w[..|w| - 1];
      TrimEndAllSpace(b, w[..|w| - 1]);
    }
  }

  /** `trim` removes exactly the white space padding around a string that
      starts and ends with something else. */
  lemma TrimPadded(lead: string, m: string, trail: string)
    requires AllSpace(lead) && AllSpace(trail)
    requires m != [] && !IsSpace(m[0]) && !IsSpace(m[|m| - 1])
    ensures Trim(lead + m + trail) == m
  {
    assert lead + m + trail == lead + (m + trail);
    TrimStartAllSpace(lead, m + trail);
    TrimEndAllSpace(m, trail);
  }

  /** Trimming a string with no white space in it gives the string back. */
  lemma TrimNoSpace(s: string)
    requires NoSpace(s)
    ensures Trim(s) == s
  {
    assert TrimStart(s) == s;
    assert s == [] || !IsSpace(s[|s| - 1]);
  }

  lemma AppendAssoc<T>(x: seq<T>, y: seq<T>, z: seq<T>)
    ensures x + (y + z) == (x + y) + z
  {
  }

  /** `s.replace(/\s+/g, '-')`: every maximal run of white space becomes one
      dash; so the result has no white space left. */
  function ReplaceSpaceRuns(s: string): (r: string)
    ensures NoSpace(r)
    ensures |r| <= |s|
    decreases |s|
  {
    if s == [] then []
    else if IsSpace(s[0]) then "-" + ReplaceSpaceRuns(TrimStart(s[1..]))
    else [s[0]] + ReplaceSpaceRuns(s[1..])
  }

  /** A non-empty run of white space alone becomes a single dash. */
  lemma ReplaceAllSpace(w: string)
    requires w != [] && AllSpace(w)
    ensures ReplaceSpaceRuns(w) == "-"
  {
    TrimStartSuffix(w[1..]);
    assert TrimStart(w[1..]) == [];
  }

  /** The replacement works piece by piece: cutting the input anywhere except
      inside a run of white space, the pieces are replaced independently. */
  lemma {:induction false} ReplaceSplit(a: string, b: string)
    requires a == [] || b == [] || !IsSpace(a[|a| - 1]) || !IsSpace(b[0])
    ensures ReplaceSpaceRuns(a + b) == ReplaceSpaceRuns(a) + ReplaceSpaceRuns(b)
    decreases |a|, 1
  {
    if a == [] {
      assert a + b == b;
    } else if IsSpace(a[0]) && TrimStart(a[1..]) == [] {
      ReplaceSplitSpaceOnly(a, b);
    } else if IsSpace(a[0]) {
      ReplaceSplitAtSpace(a, b);
    } else {
      var ab := a + b;
      assert ReplaceSpaceRuns(ab) == [a[0]] + ReplaceSpaceRuns(a[1..] + b) by {
        assert ab[0] == a[0];
        assert ab[1..] == a[1..] + b;
      }
      assert ReplaceSpaceRuns(a[1..] + b) == ReplaceSpaceRuns(a[1..]) + ReplaceSpaceRuns(b) by {
        assert a[1..] == [] || a[1..][|a[1..]| - 1] == a[|a| - 1];
        ReplaceSplit(a[1..], b);
      }
      AppendAssoc([a[0]], ReplaceSpaceRuns(a[1..]), ReplaceSpaceRuns(b));
    }
  }

  /** One step of the replacement on a string that starts with white space:
      the run becomes a dash and the white space after it is skipped. */
  lemma ReplaceAtSpace(a: string, b: string)
    requires a != [] && IsSpace(a[0])
    ensures ReplaceSpaceRuns(a + b) == "-" + ReplaceSpaceRuns(TrimStart(a[1..] + b))
  {
    assert (a + b)[0] == a[0];
    assert (a + b)[1..] == a[1..] + b;
  }

  /** ReplaceSplit where `a` is white space only. */
  lemma ReplaceSplitSpaceOnly(a: string, b: string)
    requires a != [] && IsSpace(a[0]) && TrimStart(a[1..]) == []
    requires b == [] || !IsSpace(a[|a| - 1]) || !IsSpace(b[0])
    ensures ReplaceSpaceRuns(a + b) == ReplaceSpaceRuns(a) + ReplaceSpaceRuns(b)
  {
    ReplaceAtSpace(a, b);
    TrimStartEmpty(a[1..]);
    assert IsSpace(a[|a| - 1]);
    TrimStartAllSpace(a[1..], b);
  }

  /** ReplaceSplit where `a` starts with a run of white space and goes on
      after it. */
  lemma {:induction false} ReplaceSplitAtSpace(a: string, b: string)
    requires a != [] && IsSpace(a[0]) && TrimStart(a[1..]) != []
    requires b == [] || !IsSpace(a[|a| - 1]) || !IsSpace(b[0])
    ensures ReplaceSpaceRuns(a + b) == ReplaceSpaceRuns(a) + ReplaceSpaceRuns(b)
    decreases |a|, 0
  {
    var rest := TrimStart(a[1..]);
    ReplaceAtSpace(a, b);
    TrimStartAppend(a[1..], b);
    assert ReplaceSpaceRuns(rest + b) == ReplaceSpaceRuns(rest) + ReplaceSpaceRuns(b) by {
      TrimStartLast(a[1..]);
      ReplaceSplit(rest, b);
    }
    AppendAssoc("-", ReplaceSpaceRuns(rest), ReplaceSpaceRuns(b));
  }

  /** A string that starts and ends with something other than white space
      keeps its first and last characters. */
  lemma ReplaceKeepsEnds(t: string)
    requires t != [] && !IsSpace(t[0]) && !IsSpace(t[|t| - 1])
    ensures ReplaceSpaceRuns(t) != []
    ensures ReplaceSpaceRuns(t)[0] == t[0]
    ensures ReplaceSpaceRuns(t)[|ReplaceSpaceRuns(t)| - 1] == t[|t| - 1]
  {
    var init := t[..|t| - 1];
    assert t == init + [t[|t| - 1]];
    ReplaceSplit(init, [t[|t| - 1]]);
  }

  /** Two words with white space between them become the words joined by one
      dash. */
  lemma ReplaceWords(a: string, gap: string, b: string)
    requires a != [] && NoSpace(a) && NoSpace(b)
    requires gap != [] && AllSpace(gap)
    ensures ReplaceSpaceRuns(a + gap + b) == a + ("-" + b)
  {
    var x := gap + b;
    assert a + gap + b == a + x;
    assert !IsSpace(a[|a| - 1]);
    ReplaceSplit(a, x);
    ReplaceSpaceRunsNoSpace(a);
    ReplaceAllSpace(gap);
    if b == [] {
      assert x == gap;
    } else {
      assert !IsSpace(b[0]);
      ReplaceSplit(gap, b);
      ReplaceSpaceRunsNoSpace(b);
    }
    assert ReplaceSpaceRuns(x) == "-" + b;
  }

  /** A string without white space is left as it is. */
  lemma {:induction false} ReplaceSpaceRunsNoSpace(s: string)
    requires NoSpace(s)
    ensures ReplaceSpaceRuns(s) == s
    decreases |s|
  {
    if s != [] {
      assert !IsSpace(s[0]);
      ReplaceSpaceRunsNoSpace(s[1..]);
    }
  }

  /** `s.length`: JavaScript counts UTF-16 code units, so a character
      outside the Basic Multilingual Plane counts twice. */
  function Utf16Length(s: string): (n: nat)
    ensures |s| <= n <= 2 * |s|
  {
    if s == [] then 0 else Utf16Length(s[..|s| - 1]) + (if s[|s| - 1] > '\U{FFFF}' then 2 else 1)
  }

  /** On characters of the Basic Multilingual Plane the two lengths agree. */
  lemma {:induction false} Utf16LengthBmp(s: string)
    requires forall i :: 0 <= i < |s| ==> s[i] <= '\U{FFFF}'
    ensures Utf16Length(s) == |s|
  {
    if s != [] {
      Utf16LengthBmp(s[..|s| - 1]);
    }
  }

  // ---- parseInt and String(n) ----

  predicate IsDecimalDigit(c: char) { '0' <= c <= '9' }

  predicate IsDigitIn(c: char, radix: nat) {
    if radix == 16 then IsDecimalDigit(c) || 'a' <= c <= 'f' || 'A' <= c <= 'F'
    else IsDecimalDigit(c)
  }

  function DigitValue(c: char): (d: nat)
    ensures d < 16
  {
    if IsDecimalDigit(c) then (c - '0') as nat
    else if 'a' <= c <= 'f' then (c - 'a') as nat + 10
    else if 'A' <= c <= 'F' then (c - 'A') as nat + 10
    else 0
  }

  /** Length of the longest prefix of `s` made of digits of the radix. */
  function DigitPrefixLength(s: string, radix: nat): (n: nat)
    ensures n <= |s|
    ensures forall i :: 0 <= i < n ==> IsDigitIn(s[i], radix)
    ensures n < |s| ==> !IsDigitIn(s[n], radix)
  {
    if s != [] && IsDigitIn(s[0], radix) then 1 + DigitPrefixLength(s[1..], radix) else 0
  }

  /** The value of a digit string, most significant digit first. */
  function DigitsValue(ds: string, radix: nat): nat {
    if ds == [] then 0 else DigitsValue(ds[..|ds| - 1], radix) * radix + DigitValue(ds[|ds| - 1])
  }

  /** The digits at the start of `ds` in the given radix; none is NaN. */
  function ParseDigits(ds: string, radix: nat): Option<nat> {
    var n := DigitPrefixLength(ds, radix);
    if n == 0 then None else Some(DigitsValue(ds[..n], radix))
  }

  /** After the sign: `0x`/`0X` selects hexadecimal, anything else decimal. */
  function ParseUnsigned(u: string): Option<nat> {
    if |u| >= 2 && u[0] == '0' && (u[1] == 'x' || u[1] == 'X') then ParseDigits(u[2..], 16)
    else ParseDigits(u, 10)
  }

  /** `parseInt(s)` with no radix: leading white space is skipped, then an
      optional sign, then the digits as ParseUnsigned reads them. No digit at
      all is NaN, here None. */
  function ParseInt(s: string): (r: Option<int>)
    ensures TrimStart(s) == [] ==> r == None
    ensures r.Some? && r.value < 0 ==> TrimStart(s)[0] == '-'
    ensures TrimStart(s) != [] && '1' <= TrimStart(s)[0] <= '9' ==> r.Some? && r.value >= 0
  {
    var t := TrimStart(s);
    var signed := t != [] && (t[0] == '-' || t[0] == '+');
    match ParseUnsigned(if signed then t[1..] else t)
    case None => None
    case Some(v) => Some(if signed && t[0] == '-' then -(v as int) else v as int)
  }

  /** A string with no decimal digit in it parses as NaN. */
  lemma NonNumericIsNaN(s: string)
    requires forall i :: 0 <= i < |s| ==> !IsDecimalDigit(s[i])
    ensures ParseInt(s) == None
  {
    var t := TrimStart(s);
    TrimStartSuffix(s);
    var u := if t != [] && (t[0] == '-' || t[0] == '+') then t[1..] else t;
    assert u == s[|s| - |u|..];
    assert u == [] || !IsDecimalDigit(u[0]);
    assert ParseUnsigned(u) == ParseDigits(u, 10);
    assert DigitPrefixLength(u, 10) == 0;
  }

  function DigitChar(d: nat): (c: char)
    requires d < 10
    ensures IsDecimalDigit(c) && DigitValue(c) == d
  {
    (d as char + '0')
  }

  /** Decimal digits of a natural number, without leading zeros. */
  function NatToString(n: nat): (s: string)
    ensures |s| >= 1
    ensures forall i :: 0 <= i < |s| ==> IsDecimalDigit(s[i])
    ensures |s| >= 2 ==> s[0] != '0'
  {
    if n < 10 then [DigitChar(n)] else NatToString(n / 10) + [DigitChar(n % 10)]
  }

  /** `String(n)` for an integer: a minus sign exactly for a negative number,
      then the digits of its magnitude. */
  function IntToString(n: int): (s: string)
    ensures |s| >= 1 && (s[0] == '-' <==> n < 0)
    ensures forall i :: (if n < 0 then 1 else 0) <= i < |s| ==> IsDecimalDigit(s[i])
  {
    if n < 0 then "-" + NatToString(-n) else NatToString(n)
  }

  lemma {:induction false} NatToStringValue(n: nat)
    ensures DigitsValue(NatToString(n), 10) == n
  {
    if n >= 10 {
      var s := NatToString(n);
      assert s[..|s| - 1] == NatToString(n / 10);
      NatToStringValue(n / 10);
    }
  }

  /** The unsigned part of `String(m)` reads back as `m`. */
  lemma ParseUnsignedNatToString(m: nat)
    ensures ParseUnsigned(NatToString(m)) == Some(m)
  {
    var digits := NatToString(m);
    NatToStringValue(m);
    assert DigitPrefixLength(digits, 10) == |digits|;
    assert digits[..|digits|] == digits;
  }

  /** `parseInt(String(n)) == n`: what the server stores with `String(...)`
      is read back by `parseInt` unchanged. */
  lemma ParseIntToString(n: int)
    ensures ParseInt(IntToString(n)) == Some(n)
  {
    var m := if n < 0 then -n else n;
    var s := IntToString(n);
    ParseUnsignedNatToString(m);
    assert TrimStart(s) == s by {
      assert !IsSpace(s[0]);
    }
    if n < 0 {
      assert s[1..] == NatToString(m);
    } else {
      assert s[0] != '-' && s[0] != '+';
    }
  }
}
