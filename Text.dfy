/** The JavaScript string operations the app relies on (`toLowerCase`, `trim`,
    `includes`, `split`, template literals of numbers and `parseInt`), written
    as functions on `string`. */
module Text {
  import opened Wrappers

  /** The ECMAScript WhiteSpace and LineTerminator code points: exactly what
      the regular-expression class `\s` and `String.prototype.trim` recognise. */
  predicate IsSpace(c: char) {
    c == '\t' || c == '\n' || c == '\U{000B}' || c == '\U{000C}' || c == '\r' || c == ' '
    || c == '\U{00A0}' || c == '\U{1680}' || ('\U{2000}' <= c <= '\U{200A}')
    || c == '\U{2028}' || c == '\U{2029}' || c == '\U{202F}' || c == '\U{205F}'
    || c == '\U{3000}' || c == '\U{FEFF}'
  }

  predicate IsUpper(c: char) { 'A' <= c <= 'Z' }

  predicate IsDigit(c: char) { '0' <= c <= '9' }

  /** `toLowerCase` on one character (ASCII letters only). */
  function LowerChar(c: char): (r: char)
    ensures !IsUpper(r)
    ensures IsUpper(c) ==> r as int == c as int + 32
    ensures !IsUpper(c) ==> r == c
  {
    if IsUpper(c) then (c as int + 32) as char else c
  }

  function ToLower(s: string): (r: string)
    ensures |r| == |s|
    ensures forall i :: 0 <= i < |s| ==> r[i] == LowerChar(s[i])
  {
    if s == [] then [] else [LowerChar(s[0])] + ToLower(s[1..])
  }

  predicate IsLower(s: string) {
    forall i :: 0 <= i < |s| ==> !IsUpper(s[i])
  }

  lemma ToLowerIdempotent(s: string)
    ensures IsLower(ToLower(s))
    ensures ToLower(ToLower(s)) == ToLower(s)
  {
  }

  lemma ToLowerOfLower(s: string)
    requires IsLower(s)
    ensures ToLower(s) == s
  {
  }

  /** The UTF-16 code units of one character: two for a character outside
      the Basic Multilingual Plane (a surrogate pair), one otherwise. */
  function Utf16Units(c: char): nat {
    if c as int < 0x1_0000 then 1 else 2
  }

  /** `String.prototype.length`, which counts UTF-16 code units rather than
      characters. */
  function Utf16Length(s: string): (n: nat)
    ensures |s| <= n <= 2 * |s|
  {
    if s == [] then 0 else Utf16Units(s[0]) + Utf16Length(s[1..])
  }

  /** The two counts agree exactly on text inside the Basic Multilingual
      Plane; each character beyond it counts twice. */
  lemma {:induction false} Utf16LengthBmp(s: string)
    ensures Utf16Length(s) == |s| <==> forall i :: 0 <= i < |s| ==> s[i] as int < 0x1_0000
  {
    if s != [] {
      Utf16LengthBmp(s[1..]);
      assert forall i :: 1 <= i < |s| ==> s[i] == s[1..][i - 1];
    }
  }

  /** Lower-casing keeps the length JavaScript reports. */
  lemma {:induction false} Utf16LengthOfLower(s: string)
    ensures Utf16Length(ToLower(s)) == Utf16Length(s)
  {
    if s != [] {
      Utf16LengthOfLower(s[1..]);
      assert ToLower(s)[1..] == ToLower(s[1..]);
    }
  }

  predicate IsBlank(s: string) {
    forall i :: 0 <= i < |s| ==> IsSpace(s[i])
  }

  /** Length of the longest suffix of `s` whose characters satisfy `p`. */
  function TrailLen(s: string, p: char -> bool): (n: nat)
    ensures n <= |s|
    ensures forall i :: |s| - n <= i < |s| ==> p(s[i])
    ensures n < |s| ==> !p(s[|s| - n - 1])
  {
    if s == [] || !p(s[|s| - 1]) then 0 else 1 + TrailLen(s[..|s| - 1], p)
  }

  /** `String.prototype.trim`: leading and trailing white space removed. */
  function Trim(s: string): string {
    var t := s[SpanLen(s, IsSpace)..];
    t[..|t| - TrailLen(t, IsSpace)]
  }

  /** The source's `!x.trim()` test: the trimmed string is empty exactly when
      every character is white space. */
  lemma TrimEmptyIffBlank(s: string)
    ensures Trim(s) == [] <==> IsBlank(s)
  {
    var m := SpanLen(s, IsSpace);
    var t := s[m..];
    if !IsBlank(s) {
      var i :| 0 <= i < |s| && !IsSpace(s[i]);
      assert i >= m;
      assert t[i - m] == s[i];
      assert i - m < |t| - TrailLen(t, IsSpace);
    }
  }

  predicate StartsWith(s: string, prefix: string) {
    |prefix| <= |s| && s[..|prefix|] == prefix
  }

  predicate EndsWith(s: string, suffix: string) {
    |suffix| <= |s| && s[|s| - |suffix|..] == suffix
  }

  /** `s.includes(t)`. */
  predicate Contains(s: string, t: string)
    decreases |s|
  {
    StartsWith(s, t) || (s != [] && Contains(s[1..], t))
  }

  predicate OccursAt(s: string, t: string, i: int) {
    0 <= i <= |s| - |t| && s[i..i + |t|] == t
  }

  /** `includes` in its positional reading: `t` occurs at some index of `s`. */
  lemma ContainsAt(s: string, t: string)
    ensures Contains(s, t) <==> exists i :: OccursAt(s, t, i)
    decreases |s|
  {
    if StartsWith(s, t) {
      assert OccursAt(s, t, 0);
    }
    if s != [] {
      ContainsAt(s[1..], t);
      if Contains(s[1..], t) {
        var i :| OccursAt(s[1..], t, i);
        assert s[i + 1..i + 1 + |t|] == t;
        assert OccursAt(s, t, i + 1);
      }
      if !StartsWith(s, t) {
        forall i | OccursAt(s, t, i)
          ensures Contains(s[1..], t)
        {
          assert i != 0;
          assert s[1..][i - 1..i - 1 + |t|] == t;
          assert OccursAt(s[1..], t, i - 1);
        }
      }
    }
  }

  lemma ContainsEmpty(s: string)
    ensures Contains(s, [])
  {
  }

  lemma ContainsSelf(s: string)
    ensures Contains(s, s)
  {
    assert StartsWith(s, s);
  }

  lemma NotContainsLonger(s: string, t: string)
    requires |s| < |t|
    ensures !Contains(s, t)
    decreases |s|
  {
    if s != [] {
      NotContainsLonger(s[1..], t);
    }
  }

  /** Length of the longest prefix of `s` whose characters satisfy `p`. */
  function SpanLen(s: string, p: char -> bool): (n: nat)
    ensures n <= |s|
    ensures forall i :: 0 <= i < n ==> p(s[i])
    ensures n < |s| ==> !p(s[n])
  {
    if s == [] || !p(s[0]) then 0 else 1 + SpanLen(s[1..], p)
  }

  /** Length of the longest prefix of `s` without a separator. */
  function WordLen(s: string, isSep: char -> bool): (n: nat)
    ensures n <= |s|
    ensures forall i :: 0 <= i < n ==> !isSep(s[i])
    ensures n < |s| ==> isSep(s[n])
  {
    if s == [] || isSep(s[0]) then 0 else 1 + WordLen(s[1..], isSep)
  }

  /** Length of the longest prefix of `s` without the character `c`. */
  function UntilChar(s: string, c: char): (n: nat)
    ensures n <= |s|
    ensures forall i :: 0 <= i < n ==> s[i] != c
    ensures n < |s| ==> s[n] == c
  {
    if s == [] || s[0] == c then 0 else 1 + UntilChar(s[1..], c)
  }

  /** `s.split(re)` for a regular expression `re` that matches one or more
      separator characters (`/[,\s]+/`, `/\s+/`): the pieces between maximal
      runs of separators, with an empty first (last) piece when `s` starts
      (ends) with a separator, and `[""]` for the empty string. */
  function SplitRuns(s: string, isSep: char -> bool): (r: seq<string>)
    ensures |r| >= 1
    ensures forall i, j :: 0 <= i < |r| && 0 <= j < |r[i]| ==> !isSep(r[i][j])
    decreases |s|
  {
    var w := WordLen(s, isSep);
    if w == |s| then [s]
    else
      var rest := s[w..];
      var k := SpanLen(rest, isSep);
      [s[..w]] + SplitRuns(rest[k..], isSep)
  }

  /** Every character of a piece is a character of `s`. */
  lemma {:induction false} SplitRunsChars(s: string, isSep: char -> bool)
    ensures forall i, j :: 0 <= i < |SplitRuns(s, isSep)| && 0 <= j < |SplitRuns(s, isSep)[i]| ==>
      SplitRuns(s, isSep)[i][j] in s
    decreases |s|
  {
    var w := WordLen(s, isSep);
    if w < |s| {
      var rest := s[w..];
      var k := SpanLen(rest, isSep);
      var tail := rest[k..];
      SplitRunsChars(tail, isSep);
      assert tail == s[w + k..];
      assert forall c :: c in tail ==> c in s;
      assert forall c :: c in s[..w] ==> c in s;
    }
  }

  /** `s.split(c)` for a one-character separator string: every occurrence
      separates, so adjacent separators give empty pieces. */
  function SplitOnChar(s: string, c: char): (r: seq<string>)
    ensures |r| >= 1
    ensures forall i, j :: 0 <= i < |r| && 0 <= j < |r[i]| ==> r[i][j] != c
    decreases |s|
  {
    var w := UntilChar(s, c);
    if w == |s| then [s] else [s[..w]] + SplitOnChar(s[w + 1..], c)
  }

  /** Whatever occurs in a suffix of `s` occurs in `s`. */
  lemma {:induction false} ContainsInSuffix(s: string, k: nat, t: string)
    requires k <= |s| && Contains(s[k..], t)
    ensures Contains(s, t)
    decreases k
  {
    if k > 0 {
      assert s[1..][k - 1..] == s[k..];
      ContainsInSuffix(s[1..], k - 1, t);
    } else {
      assert s[0..] == s;
    }
  }

  /** Every piece of `s.split(c)` occurs in `s`. */
  lemma {:induction false} SplitOnCharContained(s: string, c: char)
    ensures forall w :: w in SplitOnChar(s, c) ==> Contains(s, w)
    decreases |s|
  {
    var u := UntilChar(s, c);
    if u == |s| {
      ContainsSelf(s);
    } else {
      var rest := s[u + 1..];
      SplitOnCharContained(rest, c);
      assert StartsWith(s, s[..u]);
      forall w | w in SplitOnChar(rest, c) ensures Contains(s, w) {
        ContainsInSuffix(s, u + 1, w);
      }
    }
  }

  /** Every character of a piece of `s.split(c)` is a character of `s`. */
  lemma {:induction false} SplitOnCharChars(s: string, c: char)
    ensures forall i, j :: 0 <= i < |SplitOnChar(s, c)| && 0 <= j < |SplitOnChar(s, c)[i]| ==>
      SplitOnChar(s, c)[i][j] in s
    decreases |s|
  {
    var u := UntilChar(s, c);
    if u < |s| {
      var rest := s[u + 1..];
      SplitOnCharChars(rest, c);
      assert forall d :: d in rest ==> d in s;
      assert forall d :: d in s[..u] ==> d in s;
    }
  }

  function Concat(ss: seq<string>): string {
    if ss == [] then [] else ss[0] + Concat(ss[1..])
  }

  /** The characters of `s` that are not separators, in order. */
  function Kept(s: string, isSep: char -> bool): string {
    if s == [] then [] else (if isSep(s[0]) then [] else [s[0]]) + Kept(s[1..], isSep)
  }

  lemma {:induction false} ConcatAppend(a: seq<string>, b: seq<string>)
    ensures Concat(a + b) == Concat(a) + Concat(b)
  {
    if a != [] {
      assert (a + b)[0] == a[0];
      assert (a + b)[1..] == a[1..] + b;
      ConcatAppend(a[1..], b);
    } else {
      assert a + b == b;
    }
  }

  lemma {:induction false} KeptAppend(a: string, b: string, isSep: char -> bool)
    ensures Kept(a + b, isSep) == Kept(a, isSep) + Kept(b, isSep)
  {
    if a != [] {
      assert (a + b)[0] == a[0];
      assert (a + b)[1..] == a[1..] + b;
      KeptAppend(a[1..], b, isSep);
    } else {
      assert a + b == b;
    }
  }

  lemma {:induction false} KeptAll(s: string, isSep: char -> bool)
    requires forall i :: 0 <= i < |s| ==> !isSep(s[i])
    ensures Kept(s, isSep) == s
  {
    if s != [] {
      KeptAll(s[1..], isSep);
    }
  }

  lemma {:induction false} KeptNone(s: string, isSep: char -> bool)
    requires forall i :: 0 <= i < |s| ==> isSep(s[i])
    ensures Kept(s, isSep) == []
  {
    if s != [] {
      KeptNone(s[1..], isSep);
    }
  }

  /** Splitting on separator runs loses nothing but the separators: joining
      the pieces gives back `s` with its separators removed. */
  lemma {:induction false} SplitRunsKeepsText(s: string, isSep: char -> bool)
    ensures Concat(SplitRuns(s, isSep)) == Kept(s, isSep)
    decreases |s|
  {
    var w := WordLen(s, isSep);
    if w == |s| {
      KeptAll(s, isSep);
      assert Concat([s]) == s + Concat([]);
    } else {
      var rest := s[w..];
      var k := SpanLen(rest, isSep);
      var tail := rest[k..];
      SplitRunsKeepsText(tail, isSep);
      var pieces := SplitRuns(tail, isSep);
      assert SplitRuns(s, isSep) == [s[..w]] + pieces;
      ConcatAppend([s[..w]], pieces);
      ConcatSingle(s[..w]);
      KeptSplit(s, w, k, isSep);
    }
  }

  lemma ConcatSingle(w: string)
    ensures Concat([w]) == w
  {
    assert [w][1..] == [];
  }

  lemma {:induction false} KeptSplit(s: string, w: nat, k: nat, isSep: char -> bool)
    requires w + k <= |s|
    requires forall i :: 0 <= i < w ==> !isSep(s[i])
    requires forall i :: w <= i < w + k ==> isSep(s[i])
    ensures Kept(s, isSep) == s[..w] + Kept(s[w + k..], isSep)
  {
    assert s == s[..w] + (s[w..w + k] + s[w + k..]);
    KeptAppend(s[..w], s[w..w + k] + s[w + k..], isSep);
    KeptAppend(s[w..w + k], s[w + k..], isSep);
    KeptAll(s[..w], isSep);
    KeptNone(s[w..w + k], isSep);
  }

  function NonEmpty(ss: seq<string>): (r: seq<string>)
    ensures forall i :: 0 <= i < |r| ==> r[i] != []
    ensures forall x :: x in r <==> x in ss && x != []
  {
    if ss == [] then []
    else (if ss[0] == [] then [] else [ss[0]]) + NonEmpty(ss[1..])
  }

  function DigitChar(d: nat): (c: char)
    requires d < 10
    ensures IsDigit(c)
  {
    ('0' as int + d) as char
  }

  function DigitValue(c: char): (d: nat)
    requires IsDigit(c)
    ensures d < 10 && DigitChar(d) == c
  {
    c as int - '0' as int
  }

  /** The decimal numeral of `n`, as a template literal prints a non-negative integer. */
  function NatToString(n: nat): (r: string)
    ensures r != []
    ensures forall i :: 0 <= i < |r| ==> IsDigit(r[i])
  {
    if n < 10 then [DigitChar(n)] else NatToString(n / 10) + [DigitChar(n % 10)]
  }

  /** `${n}` for an integer `n`. */
  function IntToString(n: int): (r: string)
    ensures r != []
  {
    if n < 0 then "-" + NatToString(-n) else NatToString(n)
  }

  /** The value of a string of decimal digits. */
  function DecimalValue(ds: string): nat
    requires forall i :: 0 <= i < |ds| ==> IsDigit(ds[i])
  {
    if ds == [] then 0 else DecimalValue(ds[..|ds| - 1]) * 10 + DigitValue(ds[|ds| - 1])
  }

  predicate IsHexDigit(c: char) {
    IsDigit(c) || ('a' <= c <= 'f') || ('A' <= c <= 'F')
  }

  function HexDigitValue(c: char): (d: nat)
    requires IsHexDigit(c)
    ensures d < 16
  {
    if IsDigit(c) then c as int - '0' as int
    else if 'a' <= c <= 'f' then c as int - 'a' as int + 10
    else c as int - 'A' as int + 10
  }

  function HexValue(ds: string): nat
    requires forall i :: 0 <= i < |ds| ==> IsHexDigit(ds[i])
  {
    if ds == [] then 0 else HexValue(ds[..|ds| - 1]) * 16 + HexDigitValue(ds[|ds| - 1])
  }

  /** The unsigned part of `parseInt`: a `0x`/`0X` prefix selects base 16,
      otherwise base 10; the longest run of valid digits is read, and no digit
      at all gives `NaN` (here `None`). */
  function ParseUnsigned(s: string): (r: Option<int>)
    ensures r.Some? ==> r.value >= 0
  {
    if |s| >= 2 && s[0] == '0' && (s[1] == 'x' || s[1] == 'X') then
      var ds := s[2..][..SpanLen(s[2..], IsHexDigit)];
      if ds == [] then None else Some(HexValue(ds))
    else
      var ds := s[..SpanLen(s, IsDigit)];
      if ds == [] then None else Some(DecimalValue(ds))
  }

  /** `parseInt(s)` with no radix, on integers: leading white space is skipped,
      an optional sign is read, then the digits. `None` stands for `NaN`. */
  function ParseInt(s: string): (r: Option<int>) {
    var t := s[SpanLen(s, IsSpace)..];
    if t != [] && t[0] == '-' then
      match ParseUnsigned(t[1..])
      case Some(v) => Some(-v)
      case None => None
    else if t != [] && t[0] == '+' then ParseUnsigned(t[1..])
    else ParseUnsigned(t)
  }

  lemma {:induction false} DecimalValueOfNatToString(n: nat)
    ensures DecimalValue(NatToString(n)) == n
  {
    var r := NatToString(n);
    if n >= 10 {
      DecimalValueOfNatToString(n / 10);
      assert r[..|r| - 1] == NatToString(n / 10);
    }
  }

  lemma ParseUnsignedOfNatToString(n: nat)
    ensures ParseUnsigned(NatToString(n)) == Some(n)
  {
    var r := NatToString(n);
    if |r| >= 2 {
      assert r[1] != 'x' && r[1] != 'X' by { assert IsDigit(r[1]); }
    }
    assert SpanLen(r, IsDigit) == |r|;
    assert r[..|r|] == r;
    DecimalValueOfNatToString(n);
  }

  /** A numeral starts with a digit or a minus sign, never with white space. */
  lemma IntToStringStart(n: int)
    ensures IntToString(n)[0] == '-' || IsDigit(IntToString(n)[0])
    ensures SpanLen(IntToString(n), IsSpace) == 0
  {
    var r := IntToString(n);
    if n >= 0 {
      assert IsDigit(NatToString(n)[0]);
    }
    assert !IsSpace(r[0]);
  }

  /** `parseInt` reads back the numeral a template literal prints. */
  lemma ParseIntOfIntToString(n: int)
    ensures ParseInt(IntToString(n)) == Some(n)
  {
    var r := IntToString(n);
    IntToStringStart(n);
    assert r[0..] == r;
    if n < 0 {
      assert r[1..] == NatToString(-n);
      ParseUnsignedOfNatToString(-n);
    } else {
      ParseUnsignedOfNatToString(n);
    }
  }
}
