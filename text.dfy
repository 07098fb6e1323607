/** String operations of the Python and TypeScript runtimes that the core relies on:
    `str.strip`, `str.split`, `str.join`, `in` / `includes`, `startswith`, `lower`,
    and decimal rendering and parsing of integers. */
module Text {
  import opened Wrappers

  /** The characters for which Python's `str.isspace()` holds; `str.strip()` and
      `str.split()` without arguments treat exactly these as whitespace. */
  predicate IsSpace(c: char) {
    if c <= ' ' then '\t' <= c <= '\r' || '\U{1C}' <= c
    else if c < '\U{85}' then false
    else (c == '\U{85}' || c == '\U{A0}' || c == '\U{1680}' || ('\U{2000}' <= c <= '\U{200A}')
          || c == '\U{2028}' || c == '\U{2029}' || c == '\U{202F}' || c == '\U{205F}' || c == '\U{3000}')
  }

  /** Python's truthiness of `s.strip()`: false exactly when `s` is all whitespace. */
  predicate IsBlank(s: string) {
    forall i :: 0 <= i < |s| ==> IsSpace(s[i])
  }

  /** The index of the first character of `s` at or after `i` that is not whitespace,
      or `|s|` when there is none. */
  function SkipSpace(s: string, i: nat): (k: nat)
    requires i <= |s|
    ensures i <= k <= |s|
    ensures forall j :: i <= j < k ==> IsSpace(s[j])
    ensures k < |s| ==> !IsSpace(s[k])
    decreases |s| - i
  {
    if i < |s| && IsSpace(s[i]) then SkipSpace(s, i + 1) else i
  }

  /** The index just past the last character of `s[k..e]` that is not whitespace, or `k`
      when there is none. */
  function SkipSpaceBack(s: string, k: nat, e: nat): (j: nat)
    requires k <= e <= |s|
    ensures k <= j <= e
    ensures forall m :: j <= m < e ==> IsSpace(s[m])
    ensures j > k ==> !IsSpace(s[j - 1])
    decreases e
  {
    if e > k && IsSpace(s[e - 1]) then SkipSpaceBack(s, k, e - 1) else e
  }

  /** `s.lstrip()` */
  function StripLeft(s: string): (r: string)
    ensures |r| <= |s| && r == s[|s| - |r|..]
    ensures forall i :: 0 <= i < |s| - |r| ==> IsSpace(s[i])
    ensures r != [] ==> !IsSpace(r[0])
  {
    s[SkipSpace(s, 0)..]
  }

  /** `s.rstrip()` */
  function StripRight(s: string): (r: string)
    ensures |r| <= |s| && r == s[..|r|]
    ensures forall i :: |r| <= i < |s| ==> IsSpace(s[i])
    ensures r != [] ==> !IsSpace(r[|r| - 1])
  {
    s[..SkipSpaceBack(s, 0, |s|)]
  }

  /** How many whitespace characters `s.lstrip()` removes from the front of `s`. */
  function StripOffset(s: string): (k: nat)
    ensures k <= |s|
  {
    SkipSpace(s, 0)
  }

  /** `s.strip()`: the slice of `s` left once the whitespace at both ends is removed. */
  function Strip(s: string): (r: string)
    ensures StripOffset(s) + |r| <= |s| && r == s[StripOffset(s)..StripOffset(s) + |r|]
    ensures forall i :: 0 <= i < StripOffset(s) ==> IsSpace(s[i])
    ensures forall i :: StripOffset(s) + |r| <= i < |s| ==> IsSpace(s[i])
    ensures r != [] ==> !IsSpace(r[0]) && !IsSpace(r[|r| - 1])
    ensures r == [] <==> IsBlank(s)
  {
    var k := SkipSpace(s, 0);
    s[k..SkipSpaceBack(s, k, |s|)]
  }

  /** Stripping a string whose two ends are not whitespace leaves it unchanged. */
  lemma StripKeeps(s: string)
    requires s == [] || (!IsSpace(s[0]) && !IsSpace(s[|s| - 1]))
    ensures Strip(s) == s
  {
  }

  /** Stripping is idempotent. */
  lemma StripIdempotent(s: string)
    ensures Strip(Strip(s)) == Strip(s)
  {
    StripKeeps(Strip(s));
  }

  /** `sep` occurs in `s` starting at index `i`. */
  predicate OccursAt(s: string, sep: string, i: int) {
    0 <= i && i + |sep| <= |s| && s[i..i + |sep|] == sep
  }

  /** An occurrence in `s` after its first character is an occurrence in `s[1..]`. */
  lemma OccursShift(s: string, sep: string)
    requires |s| > 0
    ensures forall j :: 1 <= j ==> (OccursAt(s, sep, j) <==> OccursAt(s[1..], sep, j - 1))
  {
    forall j | 1 <= j
      ensures OccursAt(s, sep, j) <==> OccursAt(s[1..], sep, j - 1)
    {
      if j + |sep| <= |s| {
        var a, b := s[j..j + |sep|], s[1..][j - 1..j - 1 + |sep|];
        assert |a| == |b|;
        assert forall k :: 0 <= k < |a| ==> a[k] == s[j + k] == b[k];
        assert a == b;
      }
    }
  }

  /** `s.find(sep)`: the index of the first occurrence of `sep`, if any. */
  function Find(s: string, sep: string): (r: Option<nat>)
    ensures r.Some? ==> OccursAt(s, sep, r.value)
    ensures r.Some? ==> forall j :: 0 <= j < r.value ==> !OccursAt(s, sep, j)
    ensures r.None? ==> forall j :: !OccursAt(s, sep, j)
    decreases |s|
  {
    if |s| < |sep| then None
    else if s[..|sep|] == sep then Some(0)
    else
      var r := Find(s[1..], sep);
      OccursShift(s, sep);
      match r
      case None => None
      case Some(k) => Some(k + 1)
  }

  /** `sub in s` (Python) and `s.includes(sub)` (JavaScript). */
  predicate Contains(s: string, sub: string) {
    Find(s, sub).Some?
  }

  /** `s.startswith(p)` */
  predicate StartsWith(s: string, p: string) {
    |p| <= |s| && s[..|p|] == p
  }

  /** `s.rfind(c)` for a single character: the index of its last occurrence. */
  function FindLast(s: string, c: char): (r: Option<nat>)
    ensures r.Some? ==> r.value < |s| && s[r.value] == c
    ensures r.Some? ==> forall j :: r.value < j < |s| ==> s[j] != c
    ensures r.None? ==> forall j :: 0 <= j < |s| ==> s[j] != c
  {
    if s == [] then None
    else if s[|s| - 1] == c then Some(|s| - 1)
    else FindLast(s[..|s| - 1], c)
  }

  /** `s.split(sep)` for a non-empty separator: the pieces between the occurrences of
      `sep`, found left to right without overlap. */
  function Split(s: string, sep: string): (r: seq<string>)
    requires |sep| > 0
    ensures |r| >= 1
    ensures !Contains(s, sep) ==> r == [s]
    ensures Contains(s, sep) ==> |r| >= 2
    decreases |s|
  {
    match Find(s, sep)
    case None => [s]
    case Some(i) => [s[..i]] + Split(s[i + |sep|..], sep)
  }

  /** Every occurrence of `sep` begins with its first character. */
  lemma OccurrenceStartsWithFirst(s: string, sep: string, j: int)
    requires |sep| > 0 && OccursAt(s, sep, j)
    ensures s[j] == sep[0]
  {
    assert s[j..j + |sep|][0] == s[j];
  }

  /** The first occurrence is where `Find` points. */
  lemma FindAt(s: string, sep: string, k: nat)
    requires OccursAt(s, sep, k)
    requires forall j :: 0 <= j < k ==> !OccursAt(s, sep, j)
    ensures Find(s, sep) == Some(k)
  {
  }

  /** A string without the separator's first character does not contain the separator. */
  lemma LacksFirst(b: string, sep: string)
    requires |sep| > 0 && sep[0] !in b
    ensures !Contains(b, sep)
  {
    if Contains(b, sep) {
      var j := Find(b, sep).value;
      OccurrenceStartsWithFirst(b, sep, j);
    }
  }

  /** Splitting `a + sep + b` where the separator's first character occurs nowhere else
      gives exactly the two outer pieces. */
  lemma SplitOnce(a: string, sep: string, b: string)
    requires |sep| > 0 && sep[0] !in a && sep[0] !in b
    ensures Split(a + sep + b, sep) == [a, b]
  {
    var s := a + sep + b;
    assert s[|a|..|a| + |sep|] == sep;
    forall j | 0 <= j < |a| ensures !OccursAt(s, sep, j) {
      if OccursAt(s, sep, j) {
        OccurrenceStartsWithFirst(s, sep, j);
      }
    }
    FindAt(s, sep, |a|);
    assert s[..|a|] == a;
    assert s[|a| + |sep|..] == b;
    LacksFirst(b, sep);
    assert Split(s, sep) == [a] + Split(b, sep);
  }

  /** Skipping whitespace from inside a blank prefix stops at its end. */
  lemma {:induction false} SkipBlankPrefix(w: string, t: string, i: nat)
    requires IsBlank(w) && (t == [] || !IsSpace(t[0])) && i <= |w|
    ensures SkipSpace(w + t, i) == |w|
    decreases |w| - i
  {
    if i < |w| {
      assert (w + t)[i] == w[i];
      SkipBlankPrefix(w, t, i + 1);
    } else if t != [] {
      assert (w + t)[i] == t[0];
    }
  }

  /** Skipping whitespace back from the end of a blank suffix stops at its start. */
  lemma {:induction false} SkipBlankSuffix(t: string, w: string, k: nat, e: nat)
    requires IsBlank(w) && k <= |t| && (t == [] || !IsSpace(t[|t| - 1])) && |t| <= e <= |t| + |w|
    ensures SkipSpaceBack(t + w, k, e) == |t|
    decreases e
  {
    if e > |t| {
      assert (t + w)[e - 1] == w[e - 1 - |t|];
      SkipBlankSuffix(t, w, k, e - 1);
    } else if t != [] && e > k {
      assert (t + w)[e - 1] == t[|t| - 1];
    }
  }

  /** A run of whitespace in front of a string whose first character is not whitespace is
      what `lstrip` removes. */
  lemma StripLeftBlankPrefix(w: string, t: string)
    requires IsBlank(w) && (t == [] || !IsSpace(t[0]))
    ensures StripLeft(w + t) == t
  {
    SkipBlankPrefix(w, t, 0);
    assert (w + t)[|w|..] == t;
  }

  /** A run of whitespace after a string whose last character is not whitespace is what
      `rstrip` removes. */
  lemma StripRightBlankSuffix(t: string, w: string)
    requires IsBlank(w) && (t == [] || !IsSpace(t[|t| - 1]))
    ensures StripRight(t + w) == t
  {
    SkipBlankSuffix(t, w, 0, |t + w|);
    assert (t + w)[..|t|] == t;
  }

  /** `strip` removes exactly the whitespace padding around a string with non-blank ends. */
  lemma StripPadding(w1: string, core: string, w2: string)
    requires IsBlank(w1) && IsBlank(w2)
    requires core != [] && !IsSpace(core[0]) && !IsSpace(core[|core| - 1])
    ensures Strip(w1 + core + w2) == core
  {
    var s := w1 + core + w2;
    assert s == w1 + (core + w2);
    SkipBlankPrefix(w1, core + w2, 0);
    SkipBlankSuffix(w1 + core, w2, |w1|, |s|);
    assert s[|w1|..|w1| + |core|] == core;
  }

  /** The first token of a whitespace-free word followed by whitespace is the word. */
  lemma {:induction false} TakeWord(p: string, rest: string)
    requires forall i :: 0 <= i < |p| ==> !IsSpace(p[i])
    requires rest != [] && IsSpace(rest[0])
    ensures TakeNonSpace(p + rest) == p
    decreases |p|
  {
    if p != [] {
      assert (p + rest)[1..] == p[1..] + rest;
      TakeWord(p[1..], rest);
    } else {
      assert p + rest == rest;
    }
  }

  /** `sep.join(parts)` */
  function Join(parts: seq<string>, sep: string): string
    decreases |parts|
  {
    if |parts| == 0 then ""
    else if |parts| == 1 then parts[0]
    else parts[0] + sep + Join(parts[1..], sep)
  }

  /** Joining the pieces of a split with the same separator gives the string back. */
  lemma {:induction false} JoinSplit(s: string, sep: string)
    requires |sep| > 0
    ensures Join(Split(s, sep), sep) == s
    decreases |s|
  {
    match Find(s, sep)
    case None =>
    case Some(i) =>
      var rest := s[i + |sep|..];
      JoinSplit(rest, sep);
      assert s == s[..i] + sep + rest by {
        assert s[i..i + |sep|] == sep;
      }
  }

  /** Joining with a separator: the empty list gives "", a single piece gives itself, and
      one more piece adds the separator. */
  lemma {:induction false} JoinSnoc(parts: seq<string>, p: string, sep: string)
    ensures Join(parts + [p], sep) == if parts == [] then p else Join(parts, sep) + sep + p
    decreases |parts|
  {
    if |parts| >= 2 {
      assert (parts + [p])[1..] == parts[1..] + [p];
      JoinSnoc(parts[1..], p, sep);
    } else if |parts| == 1 {
      assert parts + [p] == [parts[0], p];
    } else {
      assert parts + [p] == [p];
    }
  }

  /** Joining two runs of parts is joining each run and putting one separator between
      them when both are non-empty. */
  lemma {:induction false} JoinAppend(p: seq<string>, q: seq<string>, sep: string)
    ensures Join(p + q, sep) ==
      if p == [] then Join(q, sep) else if q == [] then Join(p, sep) else Join(p, sep) + sep + Join(q, sep)
    decreases |p|
  {
    if p == [] {
      assert p + q == q;
    } else if q == [] {
      assert p + q == p;
    } else if |p| == 1 {
      assert (p + q)[1..] == q;
    } else {
      assert (p + q)[1..] == p[1..] + q;
      JoinAppend(p[1..], q, sep);
    }
  }

  /** `s.split()[0]` when it exists: the first maximal run of non-whitespace characters. */
  function FirstToken(s: string): (r: Option<string>)
    ensures r.None? <==> IsBlank(s)
    ensures r.Some? ==> r.value != [] && forall i :: 0 <= i < |r.value| ==> !IsSpace(r.value[i])
  {
    var t := StripLeft(s);
    if t == [] then None else Some(TakeNonSpace(t))
  }

  /** The longest prefix of `s` that holds no whitespace. */
  function TakeNonSpace(s: string): (r: string)
    ensures |r| <= |s| && r == s[..|r|]
    ensures forall i :: 0 <= i < |r| ==> !IsSpace(r[i])
    ensures |r| < |s| ==> IsSpace(s[|r|])
  {
    if s == [] || IsSpace(s[0]) then [] else [s[0]] + TakeNonSpace(s[1..])
  }

  /** The upper-case letters of ASCII, Latin-1 and Latin Extended-A whose lower case is
      one character: every one of them except U+0130, whose lower case is two characters. */
  predicate IsUpper(c: char) {
    var n := c as int;
    || 'A' <= c <= 'Z'
    || (0xC0 <= n <= 0xDE && n != 0xD7)
    || (0x100 <= n <= 0x12F && n % 2 == 0)
    || (0x132 <= n <= 0x137 && n % 2 == 0)
    || (0x139 <= n <= 0x148 && n % 2 == 1)
    || (0x14A <= n <= 0x177 && n % 2 == 0)
    || n == 0x178
    || (0x179 <= n <= 0x17E && n % 2 == 1)
  }

  /** Lower-casing of one character: ASCII and Latin-1 letters move 32 code points,
      U+0178 becomes U+00FF, the other Latin Extended-A capitals become the next code
      point, and every other character stays. */
  function LowerChar(c: char): (r: char)
    ensures 'A' <= c <= 'Z' ==> 'a' <= r <= 'z' && r as int - c as int == 32
    ensures IsUpper(c) ==> r != c && !IsUpper(r)
    ensures !IsUpper(c) ==> r == c
  {
    var n := c as int;
    if 'A' <= c <= 'Z' || (0xC0 <= n <= 0xDE && n != 0xD7) then (n + 32) as char
    else if n == 0x178 then 0xFF as char
    else if IsUpper(c) then (n + 1) as char
    else c
  }

  /** `s.lower()` / `s.toLowerCase()`, for the letters `LowerChar` covers. */
  function Lower(s: string): (r: string)
    ensures |r| == |s|
    ensures forall i :: 0 <= i < |s| ==> r[i] == LowerChar(s[i])
  {
    seq(|s|, i requires 0 <= i < |s| => LowerChar(s[i]))
  }

  /** Lower-casing twice is lower-casing once. */
  lemma LowerIdempotent(v: string)
    ensures Lower(Lower(v)) == Lower(v)
  {
  }

  predicate IsDigit(c: char) {
    '0' <= c <= '9'
  }

  function DigitChar(d: nat): (c: char)
    requires d < 10
    ensures IsDigit(c) && c as int - '0' as int == d
  {
    ('0' as int + d) as char
  }

  /** The decimal value of a string of digits. */
  function DigitsValue(ds: string): nat
    requires AllDigits(ds)
    decreases |ds|
  {
    if ds == [] then 0
    else
      assert IsDigit(ds[|ds| - 1]);
      DigitsValue(ds[..|ds| - 1]) * 10 + (ds[|ds| - 1] as int - '0' as int)
  }

  /** The decimal rendering of a natural number, as `str(n)` gives it. */
  function NatToString(n: nat): (r: string)
    ensures r != [] && AllDigits(r)
  {
    if n < 10 then [DigitChar(n)] else NatToString(n / 10) + [DigitChar(n % 10)]
  }

  /** `str(i)` for any integer, and the text a JavaScript template literal shows. */
  function IntToString(i: int): (r: string)
    ensures r != [] && (r[0] == '-' || IsDigit(r[0]))
  {
    if i < 0 then "-" + NatToString(-i) else NatToString(i)
  }

  /** Reading back a rendered natural number gives the number. */
  lemma {:induction false} NatToStringValue(n: nat)
    ensures DigitsValue(NatToString(n)) == n
  {
    if n >= 10 {
      NatToStringValue(n / 10);
      var r := NatToString(n);
      assert r[..|r| - 1] == NatToString(n / 10);
    }
  }

  /** Different natural numbers render differently. */
  lemma NatToStringInjective(m: nat, n: nat)
    requires NatToString(m) == NatToString(n)
    ensures m == n
  {
    NatToStringValue(m);
    NatToStringValue(n);
  }

  /** Different integers render differently. */
  lemma IntToStringInjective(m: int, n: int)
    requires IntToString(m) == IntToString(n)
    ensures m == n
  {
    var a, b := IntToString(m), IntToString(n);
    if m < 0 && n < 0 {
      assert a[1..] == NatToString(-m) && b[1..] == NatToString(-n);
      NatToStringInjective(-m, -n);
    } else if m >= 0 && n >= 0 {
      NatToStringInjective(m, n);
    }
  }

  predicate AllDigits(ds: string) {
    forall i :: 0 <= i < |ds| ==> IsDigit(ds[i])
  }

  /** A decimal integer literal: an optional sign followed by one or more ASCII digits,
      with surrounding whitespace allowed. */
  function ParseInt(s: string): Option<int>
  {
    ParseSigned(Strip(s))
  }

  /** An optional sign followed by one or more ASCII digits, nothing else. */
  function ParseSigned(t: string): Option<int>
  {
    if t == [] then None
    else
      var ds := if t[0] == '-' || t[0] == '+' then t[1..] else t;
      if ds == [] || !AllDigits(ds) then None
      else
        var v: int := DigitsValue(ds);
        Some(if t[0] == '-' then -v else v)
  }

  /** Parsing the rendering of an integer gives the integer back. */
  lemma IntRoundTrip(i: int)
    ensures ParseInt(IntToString(i)) == Some(i)
  {
    var s := IntToString(i);
    assert !IsSpace(s[0]) && !IsSpace(s[|s| - 1]);
    StripKeeps(s);
    SignedRoundTrip(i);
  }

  lemma SignedRoundTrip(i: int)
    ensures ParseSigned(IntToString(i)) == Some(i)
  {
    var s := IntToString(i);
    if i < 0 {
      var ds := NatToString(-i);
      assert s[1..] == ds;
      NatToStringValue(-i);
    } else {
      NatToStringValue(i);
    }
  }

  /** A string with a character that is neither a digit, a sign nor whitespace never parses. */
  lemma ParseIntRejects(s: string, k: nat)
    requires k < |s| && !IsDigit(s[k]) && !IsSpace(s[k]) && s[k] != '-' && s[k] != '+'
    ensures ParseInt(s) == None
  {
    var t := Strip(s);
    var off := StripOffset(s);
    assert off <= k < off + |t|;
    assert t[k - off] == s[k];
    if t[0] == '-' || t[0] == '+' {
      assert t[1..][k - off - 1] == s[k];
    } else {
      assert !AllDigits(t);
    }
  }
}
