/** Shared vocabulary: optional values, results, and the few java.lang.String,
    Integer and Long operations that the job processor relies on. Strings are
    sequences of characters; case mapping covers ASCII letters only. */
module Common {

  /** A Java reference that may be null. */
  datatype Option<+T> = None | Some(value: T)

  /** The value of an operation or the exception it throws. */
  datatype Result<+T, +E> = Ok(value: T) | Err(error: E)

  /** A Java `byte`: signed, 8 bits. */
  type JByte = b: int | -128 <= b < 128

  const INT_MIN: int := -0x8000_0000
  const INT_MAX: int := 0x7fff_ffff
  const LONG_MIN: int := -0x8000_0000_0000_0000
  const LONG_MAX: int := 0x7fff_ffff_ffff_ffff

  /** `Math.max(lo, Math.min(x, hi))`. */
  function Clamp(x: int, lo: int, hi: int): (r: int)
    requires lo <= hi
    ensures lo <= r <= hi
    ensures lo <= x <= hi ==> r == x
    ensures x < lo ==> r == lo
    ensures hi < x ==> r == hi
  {
    if x < lo then lo else if hi < x then hi else x
  }

  function Max(a: int, b: int): int { if a < b then b else a }

  function Min(a: int, b: int): int { if a < b then a else b }

  // ---------------------------------------------------------------- strings

  predicate StartsWith(s: string, prefix: string) {
    |prefix| <= |s| && s[..|prefix|] == prefix
  }

  predicate EndsWith(s: string, suffix: string) {
    |suffix| <= |s| && s[|s| - |suffix|..] == suffix
  }

  /** `s.contains(p)`: `p` occurs at some position of `s`. */
  predicate Contains(s: string, p: string)
    decreases |s|
  {
    StartsWith(s, p) || (|s| > 0 && Contains(s[1..], p))
  }

  /** For a one-character pattern `contains` is plain membership. */
  lemma {:induction false} ContainsChar(s: string, c: char)
    ensures Contains(s, [c]) <==> c in s
  {
    if |s| > 0 {
      ContainsChar(s[1..], c);
      assert s == [s[0]] + s[1..];
    }
  }

  /** A match at position `i` is a match of `contains`. */
  lemma {:induction false} ContainsAt(s: string, p: string, i: nat)
    requires i + |p| <= |s| && s[i..i + |p|] == p
    ensures Contains(s, p)
    decreases i
  {
    if i > 0 {
      assert s[1..][i - 1..i - 1 + |p|] == s[i..i + |p|];
      ContainsAt(s[1..], p, i - 1);
    }
  }

  /** Where `contains` finds its pattern. */
  lemma {:induction false} ContainsFind(s: string, p: string) returns (i: nat)
    requires Contains(s, p)
    ensures i + |p| <= |s| && s[i..i + |p|] == p
    decreases |s|
  {
    if StartsWith(s, p) {
      i := 0;
    } else {
      var j := ContainsFind(s[1..], p);
      assert s[1..][j..j + |p|] == s[j + 1..j + 1 + |p|];
      i := j + 1;
    }
  }

  /** `s == null || s.trim().isEmpty()`, the controllers' test for a missing field. */
  predicate BlankOrNull(s: Option<string>) {
    s.None? || |Trim(s.value)| == 0
  }

  /** The controllers' class-name check: a path separator or a parent reference. */
  predicate UnsafeClassName(s: string) {
    Contains(s, "/") || Contains(s, "\\") || Contains(s, "..")
  }

  /** A class name is refused exactly when it holds a '/', a '\\', or two dots in a row. */
  lemma UnsafeClassNameIff(s: string)
    ensures UnsafeClassName(s) <==>
      '/' in s || '\\' in s || exists i :: 0 <= i < |s| - 1 && s[i] == '.' && s[i + 1] == '.'
  {
    ContainsChar(s, '/');
    ContainsChar(s, '\\');
    if Contains(s, "..") {
      var i := ContainsFind(s, "..");
      assert s[i..i + 2] == "..";
      assert s[i] == '.' && s[i + 1] == '.';
    }
    if exists i :: 0 <= i < |s| - 1 && s[i] == '.' && s[i + 1] == '.' {
      var i :| 0 <= i < |s| - 1 && s[i] == '.' && s[i + 1] == '.';
      assert s[i..i + 2] == "..";
      ContainsAt(s, "..", i);
    }
  }

  /** `Character.toLowerCase` on ASCII letters. */
  function LowerChar(c: char): char {
    if 'A' <= c <= 'Z' then (c as int + 32) as char else c
  }

  /** `s.toLowerCase()`, for ASCII letters. */
  function ToLower(s: string): (r: string)
    ensures |r| == |s|
    ensures forall i :: 0 <= i < |s| ==> r[i] == LowerChar(s[i])
  {
    seq(|s|, i requires 0 <= i < |s| => LowerChar(s[i]))
  }

  /** `a.equalsIgnoreCase(b)`, for ASCII letters. */
  predicate EqualsIgnoreCase(a: string, b: string) {
    ToLower(a) == ToLower(b)
  }

  function TrimStart(s: string): (r: string)
    decreases |s|
  {
    if |s| > 0 && s[0] <= ' ' then TrimStart(s[1..]) else s
  }

  function TrimEnd(s: string): (r: string)
    decreases |s|
  {
    if |s| > 0 && s[|s| - 1] <= ' ' then TrimEnd(s[..|s| - 1]) else s
  }

  /** `s.trim()`: drop leading and trailing characters at or below U+0020. */
  function Trim(s: string): string {
    TrimEnd(TrimStart(s))
  }

  /** `s.trim().isEmpty()` holds exactly when every character is at or below U+0020. */
  lemma {:induction false} TrimEmpty(s: string)
    ensures Trim(s) == [] <==> forall i :: 0 <= i < |s| ==> s[i] <= ' '
  {
    TrimStartEmpty(s);
    TrimStartBlankPrefix(s);
    TrimEndEmpty(TrimStart(s));
  }

  lemma {:induction false} TrimStartEmpty(s: string)
    ensures TrimStart(s) == [] <==> forall i :: 0 <= i < |s| ==> s[i] <= ' '
    decreases |s|
  {
    if |s| > 0 && s[0] <= ' ' {
      TrimStartEmpty(s[1..]);
      assert forall i :: 1 <= i < |s| ==> s[i] == s[1..][i - 1];
    }
  }

  lemma {:induction false} TrimStartBlankPrefix(s: string)
    ensures |TrimStart(s)| > 0 ==> TrimStart(s)[0] > ' '
    decreases |s|
  {
    if |s| > 0 && s[0] <= ' ' {
      TrimStartBlankPrefix(s[1..]);
    }
  }

  lemma {:induction false} TrimEndEmpty(s: string)
    requires |s| > 0 ==> s[0] > ' '
    ensures TrimEnd(s) == [] <==> |s| == 0
    decreases |s|
  {
    if |s| > 0 && s[|s| - 1] <= ' ' {
      assert |s| > 1;
      TrimEndEmpty(s[..|s| - 1]);
    }
  }

  /** `Character.isWhitespace`: the Unicode space, line and paragraph separators
      other than the no-break spaces, and the ASCII controls TAB, LF, VT, FF, CR
      and FS, GS, RS, US. */
  predicate IsWhitespace(c: char) {
    var n := c as int;
    (0x09 <= n <= 0x0D) || (0x1C <= n <= 0x20) || n == 0x1680
    || (0x2000 <= n <= 0x2006) || (0x2008 <= n <= 0x200A)
    || n == 0x2028 || n == 0x2029 || n == 0x205F || n == 0x3000
  }

  /** `s.isBlank()`: empty or whitespace only. */
  predicate IsBlank(s: string) {
    forall i :: 0 <= i < |s| ==> IsWhitespace(s[i])
  }

  /** `s.replace(target, replacement)` for a one-character target. */
  function ReplaceChar(s: string, target: char, replacement: string): (r: string)
    decreases |s|
  {
    if |s| == 0 then []
    else (if s[0] == target then replacement else [s[0]]) + ReplaceChar(s[1..], target, replacement)
  }

  lemma {:induction false} ReplaceCharAppend(s: string, t: string, target: char, replacement: string)
    ensures ReplaceChar(s + t, target, replacement) == ReplaceChar(s, target, replacement) + ReplaceChar(t, target, replacement)
    decreases |s|
  {
    if |s| > 0 {
      assert (s + t)[1..] == s[1..] + t;
      ReplaceCharAppend(s[1..], t, target, replacement);
    } else {
      assert s + t == t;
    }
  }

  // ------------------------------------------------------------------ paths

  /** No two '/' in a row. */
  predicate NoDoubleSlash(s: string) {
    forall i :: 0 <= i < |s| - 1 ==> !(s[i] == '/' && s[i + 1] == '/')
  }

  /** Runs of '/' collapsed to one, as a Unix `Path` parses its string. */
  function CollapseSlashes(s: string): (r: string)
    ensures NoDoubleSlash(r)
    ensures |r| == 0 <==> |s| == 0
    ensures |r| > 0 ==> r[0] == s[0] && r[|r| - 1] == s[|s| - 1]
    decreases |s|
  {
    if |s| == 0 then []
    else if |s| >= 2 && s[0] == '/' && s[1] == '/' then CollapseSlashes(s[1..])
    else [s[0]] + CollapseSlashes(s[1..])
  }

  /** A string with no doubled '/' is its own collapse. */
  lemma {:induction false} CollapseSlashesFixed(s: string)
    requires NoDoubleSlash(s)
    ensures CollapseSlashes(s) == s
    decreases |s|
  {
    if |s| > 0 {
      assert NoDoubleSlash(s[1..]) by {
        forall i | 0 <= i < |s[1..]| - 1 ensures !(s[1..][i] == '/' && s[1..][i + 1] == '/') {
          assert s[1..][i] == s[i + 1] && s[1..][i + 1] == s[i + 2];
        }
      }
      CollapseSlashesFixed(s[1..]);
    }
  }

  /** The path string `Paths.get(s)` holds on Unix: redundant '/' removed and a
      trailing '/' dropped, the root "/" excepted; "." and ".." are kept. */
  function NormalizePath(s: string): (r: string)
    ensures NoDoubleSlash(r)
    ensures |r| > 1 ==> r[|r| - 1] != '/'
    ensures (|r| > 0 && r[0] == '/') <==> (|s| > 0 && s[0] == '/')
    ensures |r| == 0 <==> |s| == 0
  {
    var c := CollapseSlashes(s);
    if |c| > 1 && c[|c| - 1] == '/' then c[..|c| - 1] else c
  }

  /** Normalising twice is normalising once. */
  lemma NormalizePathIdempotent(s: string)
    ensures NormalizePath(NormalizePath(s)) == NormalizePath(s)
  {
    CollapseSlashesFixed(NormalizePath(s));
  }

  /** `name` appended to the directory `dir` after a '/', the root "/"
      contributing no second '/'. */
  function JoinPath(dir: string, name: string): string {
    if dir == "/" then "/" + name else dir + "/" + name
  }

  /** `dir.resolve(name)` for an absolute `dir` with its slashes collapsed: an
      empty name gives `dir`, an absolute name replaces it, and any other
      name is joined onto it. */
  function Resolve(dir: string, name: string): (r: string)
    ensures |name| == 0 ==> r == dir
    ensures |name| > 0 && name[0] == '/' ==> r == NormalizePath(name)
    ensures |name| > 0 && name[0] != '/' ==> r == JoinPath(dir, NormalizePath(name))
  {
    var n := NormalizePath(name);
    if |n| == 0 then dir else if n[0] == '/' then n else JoinPath(dir, n)
  }

  /** A plain file name (no '/') lands directly in `dir`; an absolute name
      does not depend on `dir` at all. */
  lemma ResolvePlainAndAbsolute(dir: string, other: string, name: string)
    ensures |name| > 0 && '/' !in name ==> Resolve(dir, name) == JoinPath(dir, name)
    ensures |name| > 0 && name[0] == '/' ==> Resolve(dir, name) == Resolve(other, name)
  {
    if |name| > 0 && '/' !in name {
      assert NoDoubleSlash(name);
      CollapseSlashesFixed(name);
    }
  }

  // ------------------------------------------------------ integers as text

  predicate IsDigit(c: char) { '0' <= c <= '9' }

  predicate AllDigits(s: string) { forall i :: 0 <= i < |s| ==> IsDigit(s[i]) }

  function DigitChar(d: int): (c: char)
    requires 0 <= d < 10
    ensures IsDigit(c)
  {
    ('0' as int + d) as char
  }

  /** The value of a string of decimal digits, most significant first. */
  function DigitsValue(s: string): nat
    requires AllDigits(s)
    decreases |s|
  {
    if |s| == 0 then 0 else DigitsValue(s[..|s| - 1]) * 10 + (s[|s| - 1] as int - '0' as int)
  }

  /** `Long.toString(n)` for a non-negative `n`. */
  function NatToString(n: nat): (s: string)
    ensures |s| > 0 && AllDigits(s)
    decreases n
  {
    if n < 10 then [DigitChar(n)] else NatToString(n / 10) + [DigitChar(n % 10)]
  }

  /** `Long.toString(n)` / `String.valueOf(n)`. */
  function IntToString(n: int): string {
    if n < 0 then "-" + NatToString(-n) else NatToString(n)
  }

  /** `Integer.parseInt` (range `[INT_MIN, INT_MAX]`) and `Long.parseLong`
      (range `[LONG_MIN, LONG_MAX]`): an optional sign followed by at least one
      decimal digit whose value fits the range; anything else (including null)
      throws `NumberFormatException`, modelled as `None`. */
  function ParseInteger(s: Option<string>, lo: int, hi: int): (r: Option<int>)
    ensures r.Some? ==> lo <= r.value <= hi
  {
    if s.None? || |s.value| == 0 then None
    else
      var t := s.value;
      var digits := if t[0] == '-' || t[0] == '+' then t[1..] else t;
      if |digits| == 0 || !AllDigits(digits) then None
      else
        var v: int := if t[0] == '-' then -(DigitsValue(digits) as int) else DigitsValue(digits);
        if lo <= v <= hi then Some(v) else None
  }

  function ParseInt(s: Option<string>): Option<int> { ParseInteger(s, INT_MIN, INT_MAX) }

  function ParseLong(s: Option<string>): Option<int> { ParseInteger(s, LONG_MIN, LONG_MAX) }

  lemma {:induction false} NatToStringValue(n: nat)
    ensures DigitsValue(NatToString(n)) == n
    decreases n
  {
    if n >= 10 {
      var s := NatToString(n);
      NatToStringValue(n / 10);
      assert s[..|s| - 1] == NatToString(n / 10);
    }
  }

  /** Printing a number and parsing it back gives the number, whenever it is in range. */
  lemma ParseIntegerOfToString(n: int, lo: int, hi: int)
    requires lo <= n <= hi
    ensures ParseInteger(Some(IntToString(n)), lo, hi) == Some(n)
  {
    if n < 0 {
      NatToStringValue(-n);
      assert ("-" + NatToString(-n))[1..] == NatToString(-n);
    } else {
      NatToStringValue(n);
    }
  }
}
