/**
 * The handful of JavaScript string operations the front end relies on:
 * `trim`, `split(',')`, decimal `toString` of an integer, and `parseInt`
 * (called without a radix).
 */
module Strings {
  import opened Wrappers

  /** The characters JavaScript's `trim` and `parseInt` treat as white space or line terminators. */
  predicate IsSpace(c: char) {
    || c == ' ' || c == '\t' || c == '\n' || c == '\r' || c == '\U{000B}' || c == '\U{000C}'
    || c == '\U{00A0}' || c == '\U{1680}' || c == '\U{2028}' || c == '\U{2029}' || c == '\U{202F}'
    || c == '\U{205F}' || c == '\U{3000}' || c == '\U{FEFF}'
    || '\U{2000}' <= c <= '\U{200A}'
  }

  /** JavaScript `s || d` for a string `s`: the empty string is falsy. */
  function Or(s: string, d: string): (r: string)
    ensures r == "" ==> d == ""
    ensures s != "" ==> r == s
  {
    if s == "" then d else s
  }

  /** Every character of `s` is white space. */
  predicate AllSpace(s: string)
    decreases |s|
  {
    s == [] || (IsSpace(s[0]) && AllSpace(s[1..]))
  }

  lemma {:induction false} AllSpaceAppend(a: string, b: string)
    ensures AllSpace(a + b) <==> AllSpace(a) && AllSpace(b)
    decreases |a|
  {
    if a != [] {
      assert (a + b)[1..] == a[1..] + b;
      AllSpaceAppend(a[1..], b);
    } else {
      assert a + b == b;
    }
  }

  /** `AllSpace` is the index-wise statement. */
  lemma {:induction false} AllSpaceAt(s: string)
    ensures AllSpace(s) <==> forall i :: 0 <= i < |s| ==> IsSpace(s[i])
    decreases |s|
  {
    if s != [] {
      AllSpaceAt(s[1..]);
      assert forall i :: 1 <= i < |s| ==> s[i] == s[1..][i - 1];
    }
  }

  /** Drops the leading white space. */
  function TrimStart(s: string): (r: string)
    ensures |r| <= |s| && r == s[|s| - |r|..]
    ensures AllSpace(s[..|s| - |r|])
    ensures r == [] || !IsSpace(r[0])
    ensures AllSpace(s) ==> r == []
    decreases |s|
  {
    if s != [] && IsSpace(s[0]) then
      var r := TrimStart(s[1..]);
      var skipped := s[..|s| - |r|];
      assert skipped[1..] == s[1..][..|s| - 1 - |r|];
      r
    else s
  }

  /** Drops the trailing white space. */
  function TrimEnd(s: string): (r: string)
    ensures |r| <= |s| && r == s[..|r|]
    ensures AllSpace(s[|r|..])
    ensures r == [] || !IsSpace(r[|r| - 1])
    decreases |s|
  {
    if s != [] && IsSpace(s[|s| - 1]) then
      var r := TrimEnd(s[..|s| - 1]);
      assert s[|r|..] == s[..|s| - 1][|r|..] + [s[|s| - 1]];
      AllSpaceAppend(s[..|s| - 1][|r|..], [s[|s| - 1]]);
      r
    else s
  }

  /** Neither starts nor ends with white space. */
  predicate IsTrimmed(s: string) {
    s == [] || (!IsSpace(s[0]) && !IsSpace(s[|s| - 1]))
  }

  /** String.prototype.trim: what is left between the leading and the trailing white space. */
  function Trim(s: string): (r: string)
    ensures IsTrimmed(r)
    ensures |r| <= |s|
    ensures r == [] <==> AllSpace(s)
    ensures exists i, j :: StripsTo(s, i, j, r)
  {
    TrimTrimmed(s);
    TrimEmpty(s);
    TrimStrips(s);
    TrimEnd(TrimStart(s))
  }

  lemma TrimTrimmed(s: string)
    ensures IsTrimmed(TrimEnd(TrimStart(s)))
  {
    var t := TrimStart(s);
    var r := TrimEnd(t);
    assert r != [] ==> r[0] == t[0];
  }

  lemma TrimEmpty(s: string)
    ensures TrimEnd(TrimStart(s)) == [] <==> AllSpace(s)
  {
    var t := TrimStart(s);
    var r := TrimEnd(t);
    StartSpace(s);
    EndSpace(t);
    FirstSpace(r, t);
  }

  lemma StartSpace(s: string)
    ensures AllSpace(s) <==> AllSpace(TrimStart(s))
  {
    PrefixSpace(s, |s| - |TrimStart(s)|);
  }

  lemma EndSpace(t: string)
    ensures AllSpace(t) <==> AllSpace(TrimEnd(t))
  {
    SuffixSpace(t, |TrimEnd(t)|);
  }

  /** Past a white-space prefix, `s` is all white space exactly when the rest is. */
  lemma PrefixSpace(s: string, i: int)
    requires 0 <= i <= |s| && AllSpace(s[..i])
    ensures AllSpace(s) <==> AllSpace(s[i..])
  {
    assert s[..i] + s[i..] == s;
    AllSpaceAppend(s[..i], s[i..]);
  }

  /** Before a white-space suffix, `s` is all white space exactly when the rest is. */
  lemma SuffixSpace(s: string, n: int)
    requires 0 <= n <= |s| && AllSpace(s[n..])
    ensures AllSpace(s) <==> AllSpace(s[..n])
  {
    assert s[..n] + s[n..] == s;
    AllSpaceAppend(s[..n], s[n..]);
  }

  lemma FirstSpace(r: string, t: string)
    requires |r| <= |t| && r == t[..|r|]
    requires t == [] || !IsSpace(t[0])
    ensures AllSpace(r) <==> r == []
  {
    if r != [] {
      assert r[0] == t[0];
    }
  }

  lemma TrimStrips(s: string)
    ensures exists i, j :: StripsTo(s, i, j, TrimEnd(TrimStart(s)))
  {
    var t := TrimStart(s);
    SuffixThenPrefix(s, t, TrimEnd(t));
  }

  /** A prefix `r` of a suffix `t` of `s`, with white space cut on both sides, strips `s` to `r`. */
  lemma SuffixThenPrefix(s: string, t: string, r: string)
    requires |t| <= |s| && t == s[|s| - |t|..] && AllSpace(s[..|s| - |t|])
    requires |r| <= |t| && r == t[..|r|] && AllSpace(t[|r|..])
    ensures StripsTo(s, |s| - |t|, |s| - |t| + |r|, r)
  {
    var i := |s| - |t|;
    var j := i + |r|;
    assert s[i..j] == r;
    assert s[j..] == t[|r|..];
  }

  /** `r` is `s[i..j]`, and everything of `s` before `i` and from `j` on is white space. */
  predicate StripsTo(s: string, i: int, j: int, r: string) {
    0 <= i <= j <= |s| && r == s[i..j] && AllSpace(s[..i]) && AllSpace(s[j..])
  }

  /** A trimmed string holds no character the original lacks. */
  lemma TrimKeepsOnlyOwnChars(s: string)
    ensures forall c :: c in Trim(s) ==> c in s
  {
    var t := TrimStart(s);
    SuffixThenPrefix(s, t, TrimEnd(t));
    SliceChars(s, |s| - |t|, |s| - |t| + |TrimEnd(t)|);
  }

  lemma SliceChars(s: string, i: int, j: int)
    requires 0 <= i <= j <= |s|
    ensures forall c :: c in s[i..j] ==> c in s
  {
    assert forall k :: 0 <= k < j - i ==> s[i..j][k] == s[i + k];
  }

  /** `s.trim()` is falsy. */
  predicate IsBlank(s: string) {
    Trim(s) == ""
  }

  /** A blank string is one made of white space only. */
  lemma BlankIffAllSpace(s: string)
    ensures IsBlank(s) <==> forall i :: 0 <= i < |s| ==> IsSpace(s[i])
  {
    AllSpaceAt(s);
  }

  /** Number of occurrences of `c` in `s`. */
  function Count(s: string, c: char): nat {
    if s == [] then 0 else (if s[0] == c then 1 else 0) + Count(s[1..], c)
  }

  /** String.prototype.split with a one-character separator: one segment per separator plus one, empty segments kept. */
  function Split(s: string, sep: char): (r: seq<string>)
    ensures |r| == Count(s, sep) + 1
    ensures forall i :: 0 <= i < |r| ==> sep !in r[i]
  {
    if s == [] then [""]
    else
      var rest := Split(s[1..], sep);
      if s[0] == sep then [""] + rest
      else [[s[0]] + rest[0]] + rest[1..]
  }

  /** Array.prototype.join: the segments with `sep` between consecutive ones. */
  function Join(parts: seq<string>, sep: char): string
    requires |parts| >= 1
  {
    if |parts| == 1 then parts[0] else parts[0] + [sep] + Join(parts[1..], sep)
  }

  /** Joining the segments of a split gives back the original string; with `Split`'s
      "no segment holds the separator" this pins the segments down completely. */
  lemma {:induction false} SplitJoin(s: string, sep: char)
    ensures Join(Split(s, sep), sep) == s
  {
    if s != [] {
      var rest := Split(s[1..], sep);
      SplitJoin(s[1..], sep);
      if s[0] == sep {
        assert ([""] + rest)[1..] == rest;
      } else {
        var r := Split(s, sep);
        if |rest| == 1 {
          assert r == [[s[0]] + rest[0]];
        } else {
          assert r[1..] == rest[1..];
          assert Join(rest, sep) == rest[0] + [sep] + Join(rest[1..], sep);
        }
      }
    }
  }

  /** JavaScript's `length`: UTF-16 code units, two for a character outside the Basic Multilingual Plane. */
  function Utf16Length(s: string): (r: nat)
    ensures |s| <= r <= 2 * |s|
    ensures r == |s| <==> forall i :: 0 <= i < |s| ==> s[i] as int <= 0xFFFF
  {
    if s == [] then 0 else (if s[0] as int > 0xFFFF then 2 else 1) + Utf16Length(s[1..])
  }

  /** Three emoji are six code units long in JavaScript, though three characters. */
  lemma ThreeEmojiAreSixUnits()
    ensures Utf16Length("\U{1F600}\U{1F600}\U{1F600}") == 6
  {
    var e := "\U{1F600}\U{1F600}\U{1F600}";
    assert e[1..] == "\U{1F600}\U{1F600}";
    assert e[1..][1..] == "\U{1F600}";
    assert e[1..][1..][1..] == "";
  }

  // ---- decimal numerals -------------------------------------------------

  predicate IsDecimalDigit(c: char) {
    '0' <= c <= '9'
  }

  function DigitChar(d: nat): (c: char)
    requires d < 10
    ensures IsDecimalDigit(c) && c as int - '0' as int == d
  {
    ('0' as int + d) as char
  }

  /** Number.prototype.toString for a non-negative integer. */
  function NatToString(n: nat): (r: string)
    ensures |r| >= 1
    ensures forall i :: 0 <= i < |r| ==> IsDecimalDigit(r[i])
  {
    if n < 10 then [DigitChar(n)] else NatToString(n / 10) + [DigitChar(n % 10)]
  }

  /** Number.prototype.toString for an integer: a minus sign before the digits of a negative value. */
  function IntToString(i: int): (r: string)
    ensures |r| >= 1
    ensures r[0] == '-' <==> i < 0
  {
    if i < 0 then "-" + NatToString(-i) else NatToString(i)
  }

  // ---- parseInt -----------------------------------------------------------

  /** The value of `c` as a digit in base `radix` (10 or 16), if it is one. */
  function DigitValue(c: char, radix: nat): (r: Option<nat>)
    ensures r.Some? ==> r.value < radix
  {
    if '0' <= c <= '9' && (c as int - '0' as int) < radix then Some(c as int - '0' as int)
    else if radix == 16 && 'a' <= c <= 'f' then Some(c as int - 'a' as int + 10)
    else if radix == 16 && 'A' <= c <= 'F' then Some(c as int - 'A' as int + 10)
    else None
  }

  predicate AllDigits(s: string, radix: nat) {
    forall i :: 0 <= i < |s| ==> DigitValue(s[i], radix).Some?
  }

  /** Length of the longest prefix of `s` made of digits in base `radix`. */
  function DigitPrefixLen(s: string, radix: nat): (r: nat)
    ensures r <= |s|
    ensures AllDigits(s[..r], radix)
    ensures r == |s| || DigitValue(s[r], radix).None?
  {
    if s != [] && DigitValue(s[0], radix).Some? then
      DigitPrefixLen(s[1..], radix) + 1
    else 0
  }

  /** The value of a digit string in base `radix`, most significant digit first. */
  function DigitsValue(ds: string, radix: nat): nat
    requires AllDigits(ds, radix)
  {
    if ds == [] then 0
    else DigitsValue(ds[..|ds| - 1], radix) * radix + DigitValue(ds[|ds| - 1], radix).value
  }

  /** The digits after an optional sign: hexadecimal after a `0x`/`0X` prefix, decimal otherwise;
      reading stops at the first character that is not a digit, and no digit at all is NaN (`None`). */
  function ParseUnsigned(u: string): (r: Option<nat>)
    ensures r.Some? ==> |u| > 0
    ensures |u| > 0 && IsDecimalDigit(u[0]) && !(|u| >= 2 && (u[1] == 'x' || u[1] == 'X')) ==> r.Some?
  {
    var hex := |u| >= 2 && u[0] == '0' && (u[1] == 'x' || u[1] == 'X');
    var radix := if hex then 16 else 10;
    var d := if hex then u[2..] else u;
    var n := DigitPrefixLen(d, radix);
    if n == 0 then None else Some(DigitsValue(d[..n], radix))
  }

  /** parseInt(s) with no radix: skip leading white space, take an optional sign, then `ParseUnsigned`. */
  function ParseInt(s: string): (r: Option<int>)
    ensures AllSpace(s) ==> r.None?
    ensures r.Some? && r.value < 0 ==> |TrimStart(s)| > 0 && TrimStart(s)[0] == '-'
    ensures var t := TrimStart(s);
      |t| > 0 && IsDecimalDigit(t[0]) && !(|t| >= 2 && (t[1] == 'x' || t[1] == 'X')) ==> r.Some? && r.value >= 0
  {
    var t := TrimStart(s);
    if |t| > 0 && t[0] == '-' then
      match ParseUnsigned(t[1..])
      case None => None
      case Some(v) => Some(-(v as int))
    else if |t| > 0 && t[0] == '+' then
      match ParseUnsigned(t[1..])
      case None => None
      case Some(v) => Some(v)
    else
      match ParseUnsigned(t)
      case None => None
      case Some(v) => Some(v)
  }

  lemma {:induction false} NatToStringValue(n: nat)
    ensures DigitsValue(NatToString(n), 10) == n
  {
    if n >= 10 {
      var p := NatToString(n / 10);
      var r := NatToString(n);
      assert r[..|r| - 1] == p;
      NatToStringValue(n / 10);
    }
  }

  lemma ParseUnsignedOfNatToString(n: nat)
    ensures ParseUnsigned(NatToString(n)) == Some(n)
  {
    var ds := NatToString(n);
    assert AllDigits(ds, 10);
    assert !(|ds| >= 2 && ds[0] == '0' && (ds[1] == 'x' || ds[1] == 'X')) by {
      if |ds| >= 2 { assert IsDecimalDigit(ds[1]); }
    }
    WholeDigitPrefix(ds, 10);
    assert ds[..|ds|] == ds;
    NatToStringValue(n);
  }

  /** A string of digits is its own digit prefix. */
  lemma WholeDigitPrefix(s: string, radix: nat)
    requires AllDigits(s, radix)
    ensures DigitPrefixLen(s, radix) == |s|
  {
  }

  /** parseInt undoes toString on every integer. */
  lemma ParseIntOfIntToString(i: int)
    ensures ParseInt(IntToString(i)) == Some(i)
  {
    var n: nat := if i < 0 then -i else i;
    var ds := NatToString(n);
    ParseUnsignedOfNatToString(n);
    var s := IntToString(i);
    assert !IsSpace(s[0]);
    assert TrimStart(s) == s;
    if i < 0 {
      assert s[1..] == ds;
    } else {
      assert IsDecimalDigit(s[0]);
    }
  }

  /** Different integers have different numerals. */
  lemma IntToStringInjective(a: int, b: int)
    requires IntToString(a) == IntToString(b)
    ensures a == b
  {
    ParseIntOfIntToString(a);
    ParseIntOfIntToString(b);
  }

  /** parseInt keeps the leading integer of "12abc" and gives NaN for "abc". */
  lemma ParseIntStopsAtNonDigit()
    ensures ParseInt("12abc") == Some(12)
  {
    assert TrimStart("12abc") == "12abc";
    DigitPrefixOf12abc();
    assert !("12abc"[1] == 'x' || "12abc"[1] == 'X');
    assert "12abc"[..2] == "12";
    DigitsValueOf12();
  }

  lemma DigitPrefixOf12abc()
    ensures DigitPrefixLen("12abc", 10) == 2
  {
    assert "12abc"[1..] == "2abc";
    assert "2abc"[1..] == "abc";
    assert DigitValue('a', 10).None?;
    assert DigitPrefixLen("abc", 10) == 0;
    assert DigitPrefixLen("2abc", 10) == 1;
  }

  lemma DigitsValueOf12()
    ensures AllDigits("12", 10) && DigitsValue("12", 10) == 12
  {
    assert "12"[..1] == "1";
    assert "1"[..0] == "";
    assert DigitsValue("1", 10) == 1;
  }

  lemma ParseIntNaN()
    ensures ParseInt("abc") == None
  {
    assert !IsSpace('a');
    assert TrimStart("abc") == "abc";
    assert DigitValue('a', 10).None?;
    assert DigitPrefixLen("abc", 10) == 0;
    assert ParseUnsigned("abc") == None;
  }
}
