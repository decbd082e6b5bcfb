/** The .NET string, char and path helpers that the command-line tool relies on, written
    out over `string` (a sequence of UTF-16 code units is modelled as `seq<char>`).
    A C# `string` that may be null is an `Option<string>`. Paths follow .NET on Unix:
    '/' is the only directory separator. */
module Strings {
  import opened Wrappers

  /** string.IsNullOrEmpty */
  predicate IsNullOrEmpty(s: Option<string>) {
    s.None? || s.value == ""
  }

  /** char.IsWhiteSpace: the Unicode space, line and paragraph separators, the
      controls U+0009..U+000D and U+0085. */
  predicate IsWhiteSpace(c: char) {
    c == ' ' || ('\t' <= c <= '\r') || c == '\U{85}' || c == '\U{A0}' || c == '\U{1680}'
    || ('\U{2000}' <= c <= '\U{200A}') || c == '\U{2028}' || c == '\U{2029}'
    || c == '\U{202F}' || c == '\U{205F}' || c == '\U{3000}'
  }

  /** string.IsNullOrWhiteSpace */
  predicate IsNullOrWhiteSpace(s: Option<string>) {
    s.None? || forall i :: 0 <= i < |s.value| ==> IsWhiteSpace(s.value[i])
  }

  /** The `NullIfWhiteSpace` extension method (one line, identical in three revisions):
      null exactly for null or whitespace-only input, otherwise the argument unchanged. */
  function NullIfWhiteSpace(s: Option<string>): (r: Option<string>)
    ensures r.None? <==> IsNullOrWhiteSpace(s)
    ensures r.Some? ==> r == s && exists i :: 0 <= i < |r.value| && !IsWhiteSpace(r.value[i])
  {
    if IsNullOrWhiteSpace(s) then None else s
  }

  /** The text without its leading white space. */
  function TrimStart(s: string): (r: string)
    ensures |r| <= |s| && r == s[|s| - |r|..]
    ensures r == [] || !IsWhiteSpace(r[0])
    ensures forall i :: 0 <= i < |s| - |r| ==> IsWhiteSpace(s[i])
  {
    if s != [] && IsWhiteSpace(s[0]) then TrimStart(s[1..]) else s
  }

  /** The text without its trailing white space. */
  function TrimEnd(s: string): (r: string)
    ensures |r| <= |s| && r == s[..|r|]
    ensures r == [] || !IsWhiteSpace(r[|r| - 1])
    ensures forall i :: |r| <= i < |s| ==> IsWhiteSpace(s[i])
  {
    if s != [] && IsWhiteSpace(s[|s| - 1]) then TrimEnd(s[..|s| - 1]) else s
  }

  /** string.Trim(): white space removed at both ends. */
  function Trim(s: string): (r: string)
    ensures r == [] || (!IsWhiteSpace(r[0]) && !IsWhiteSpace(r[|r| - 1]))
  {
    TrimEnd(TrimStart(s))
  }

  /** A text that neither starts nor ends with white space is its own trim. */
  lemma TrimKeeps(s: string)
    requires s != [] && !IsWhiteSpace(s[0]) && !IsWhiteSpace(s[|s| - 1])
    ensures Trim(s) == s
  {
    assert TrimStart(s) == s;
  }

  /** A null string inside C# string interpolation or `+` concatenation prints as "". */
  function Str(s: Option<string>): string {
    if s.Some? then s.value else ""
  }

  predicate StartsWith(s: string, prefix: string) {
    |prefix| <= |s| && s[..|prefix|] == prefix
  }

  predicate EndsWith(s: string, suffix: string) {
    |suffix| <= |s| && s[|s| - |suffix|..] == suffix
  }

  /** char.ToLowerInvariant on the ASCII letters; other characters are kept. */
  function ToLowerChar(c: char): char {
    if 'A' <= c <= 'Z' then (c as int + 32) as char else c
  }

  function ToLower(s: string): (r: string)
    ensures |r| == |s|
    ensures forall i :: 0 <= i < |s| ==> r[i] == ToLowerChar(s[i])
  {
    seq(|s|, i requires 0 <= i < |s| => ToLowerChar(s[i]))
  }

  /** string.Replace(char, char) */
  function ReplaceChar(s: string, from: char, to: char): (r: string)
    ensures |r| == |s|
    ensures forall i :: 0 <= i < |s| ==> r[i] == (if s[i] == from then to else s[i])
  {
    seq(|s|, i requires 0 <= i < |s| => if s[i] == from then to else s[i])
  }

  /** string.Replace(x, "") for a one-character x: every occurrence is dropped. */
  function RemoveChar(s: string, c: char): (r: string)
    ensures c !in r
    ensures forall x :: x in r ==> x in s
    ensures multiset(r) == multiset(s)[c := 0]
    ensures |r| == |s| - multiset(s)[c]
    ensures c !in s ==> r == s
  {
    if s == [] then []
    else
      assert s == [s[0]] + s[1..];
      if s[0] == c then RemoveChar(s[1..], c)
      else [s[0]] + RemoveChar(s[1..], c)
  }

  /** Removal works piece by piece, so the characters kept stay in their order. */
  lemma {:induction false} RemoveCharAppend(a: string, b: string, c: char)
    ensures RemoveChar(a + b, c) == RemoveChar(a, c) + RemoveChar(b, c)
  {
    if a == [] {
      assert a + b == b;
    } else {
      assert (a + b)[0] == a[0] && (a + b)[1..] == a[1..] + b;
      RemoveCharAppend(a[1..], b, c);
      if a[0] != c {
        var x, y := RemoveChar(a[1..], c), RemoveChar(b, c);
        assert [a[0]] + x + y == [a[0]] + (x + y);
      }
    }
  }

  /** string.Join(char, IEnumerable<string>) */
  function Join(xs: seq<string>, sep: char): string {
    if |xs| == 0 then ""
    else if |xs| == 1 then xs[0]
    else xs[0] + [sep] + Join(xs[1..], sep)
  }

  /** string.Split(char): the pieces between separators; "" splits into [""]. */
  function Split(s: string, sep: char): (r: seq<string>)
    ensures |r| >= 1
    decreases |s|
  {
    if s == [] then [""]
    else
      var rest := Split(s[1..], sep);
      if s[0] == sep then [""] + rest else [[s[0]] + rest[0]] + rest[1..]
  }

  lemma {:induction false} SplitNoSep(x: string, sep: char)
    requires sep !in x
    ensures Split(x, sep) == [x]
    decreases |x|
  {
    if x != [] {
      SplitNoSep(x[1..], sep);
      assert [x[0]] + x[1..] == x;
    }
  }

  lemma {:induction false} SplitAfterPiece(x: string, t: string, sep: char)
    requires sep !in x
    ensures Split(x + [sep] + t, sep) == [x] + Split(t, sep)
    decreases |x|
  {
    if x == [] {
      assert x + [sep] + t == [sep] + t;
      assert ([sep] + t)[1..] == t;
    } else {
      var s := x + [sep] + t;
      assert s[1..] == x[1..] + [sep] + t;
      SplitAfterPiece(x[1..], t, sep);
      assert [x[0]] + x[1..] == x;
    }
  }

  /** Splitting a join gives the pieces back, when no piece holds the separator. */
  lemma {:induction false} SplitJoin(xs: seq<string>, sep: char)
    requires |xs| >= 1
    requires forall i :: 0 <= i < |xs| ==> sep !in xs[i]
    ensures Split(Join(xs, sep), sep) == xs
    decreases |xs|
  {
    if |xs| == 1 {
      SplitNoSep(xs[0], sep);
    } else {
      SplitJoin(xs[1..], sep);
      SplitAfterPiece(xs[0], Join(xs[1..], sep), sep);
      assert [xs[0]] + xs[1..] == xs;
    }
  }

  /** The decimal digit of a value below ten. */
  function Digit(d: nat): char
    requires d < 10
  {
    "0123456789"[d]
  }

  /** int.ToString() for a non-negative value: decimal, no leading zeros. */
  function NatToString(n: nat): (r: string)
    ensures |r| >= 1
    ensures forall i :: 0 <= i < |r| ==> '0' <= r[i] <= '9'
  {
    if n < 10 then [Digit(n)] else NatToString(n / 10) + [Digit(n % 10)]
  }

  /** int.ToString() */
  function IntToString(i: int): string {
    if i < 0 then "-" + NatToString(-i) else NatToString(i)
  }

  /** The value of a string of decimal digits. */
  function DecimalValue(s: string): nat
    requires forall i :: 0 <= i < |s| ==> '0' <= s[i] <= '9'
  {
    if s == [] then 0 else DecimalValue(s[..|s| - 1]) * 10 + (s[|s| - 1] as int - '0' as int)
  }

  /** Reading back the decimal text of a number gives the number: the text of
      distinct numbers differs, so numbered references never collide. */
  lemma {:induction false} DecimalRoundTrip(n: nat)
    ensures DecimalValue(NatToString(n)) == n
  {
    var s := NatToString(n);
    if n >= 10 {
      DecimalRoundTrip(n / 10);
      assert s[..|s| - 1] == NatToString(n / 10);
    }
  }

  lemma NatToStringInjective(m: nat, n: nat)
    requires NatToString(m) == NatToString(n)
    ensures m == n
  {
    DecimalRoundTrip(m);
    DecimalRoundTrip(n);
  }

  /** Path.GetExtension scanning backwards from position i: the text from the last '.'
      to the end, unless the '.' is the final character or a '/' comes first. */
  function ExtensionScan(p: string, i: nat): string
    requires i <= |p|
  {
    if i == 0 then ""
    else if p[i - 1] == '.' then (if i - 1 != |p| - 1 then p[i - 1..] else "")
    else if p[i - 1] == '/' then ""
    else ExtensionScan(p, i - 1)
  }

  /** Path.GetExtension on a non-null path. */
  function Extension(p: string): string {
    ExtensionScan(p, |p|)
  }

  lemma {:induction false} ExtensionScanSuffix(q: string, e: string, i: nat)
    requires |e| >= 2 && e[0] == '.'
    requires '.' !in e[1..] && '/' !in e[1..]
    requires |q| + 1 <= i <= |q + e|
    ensures ExtensionScan(q + e, i) == e
    decreases i
  {
    var p := q + e;
    if i - 1 == |q| {
      assert p[i - 1] == e[0];
      assert p[i - 1..] == e;
    } else {
      assert p[i - 1] == e[i - 1 - |q|] == e[1..][i - 2 - |q|];
      ExtensionScanSuffix(q, e, i - 1);
    }
  }

  /** Only the last extension counts: a name ending in an extension such as ".json"
      has that extension whatever comes before it (so "a.spdx.json" has ".json"). */
  lemma ExtensionOfSuffix(q: string, e: string)
    requires |e| >= 2 && e[0] == '.'
    requires '.' !in e[1..] && '/' !in e[1..]
    ensures Extension(q + e) == e
  {
    ExtensionScanSuffix(q, e, |q + e|);
  }

  /** Path.GetFileName scanning backwards: the text after the last '/'. */
  function FileNameScan(p: string, i: nat): string
    requires i <= |p|
  {
    if i == 0 then p
    else if p[i - 1] == '/' then p[i..]
    else FileNameScan(p, i - 1)
  }

  /** Path.GetFileName on a non-null path. */
  function FileName(p: string): (r: string)
    ensures '/' !in r
  {
    FileNameScanNoSlash(p, |p|);
    FileNameScan(p, |p|)
  }

  lemma {:induction false} FileNameScanNoSlash(p: string, i: nat)
    requires i <= |p|
    requires '/' !in p[i..]
    ensures '/' !in FileNameScan(p, i)
    decreases i
  {
    if i == 0 {
      assert p[0..] == p;
    } else if p[i - 1] != '/' {
      assert p[i - 1..] == [p[i - 1]] + p[i..];
      FileNameScanNoSlash(p, i - 1);
    }
  }
}
