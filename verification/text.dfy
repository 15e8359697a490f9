/**
 String operations of the JavaScript runtime that the assistant relies on,
 restated over `seq<char>`: whitespace classes, ASCII case folding,
 `trim`, `split`/`join`, `slice(0, n)`, `startsWith`, decimal printing and
 `parseInt(_, 10)` of a digit run.

 Characters are Unicode scalar values; JavaScript strings are UTF-16 code
 units, so lengths differ for characters outside the Basic Multilingual Plane.
 */
module Text {

  /** The code points JavaScript calls line terminators (what `.` never matches). */
  predicate IsLineTerminator(c: char) {
    c == '\n' || c == '\r' || c == '\U{2028}' || c == '\U{2029}'
  }

  /**
   JavaScript white space together with the line terminators: the class `\s`
   and the characters `String.prototype.trim` strips.
   */
  predicate IsSpace(c: char) {
    if c <= ' ' then c == ' ' || '\t' <= c <= '\r'
    else if c < '\U{00A0}' then false
    else WideSpaceFrom(c, 0)
  }

  /** The white space characters beyond ASCII, in code point order. */
  const WideSpaces: seq<char> := [
    '\U{00A0}', '\U{1680}',
    '\U{2000}', '\U{2001}', '\U{2002}', '\U{2003}', '\U{2004}', '\U{2005}',
    '\U{2006}', '\U{2007}', '\U{2008}', '\U{2009}', '\U{200A}',
    '\U{2028}', '\U{2029}', '\U{202F}', '\U{205F}', '\U{3000}', '\U{FEFF}']

  /** `c` is one of `WideSpaces[k..]`. */
  predicate WideSpaceFrom(c: char, k: nat)
    decreases |WideSpaces| - k
  {
    k < |WideSpaces| && (c == WideSpaces[k] || WideSpaceFrom(c, k + 1))
  }

  predicate IsDigit(c: char) {
    '0' <= c <= '9'
  }

  /**
   Case folding as a case-insensitive JavaScript regular expression without the
   `u` flag performs it for the patterns here: only ASCII letters fold onto the
   ASCII letters of a pattern.
   */
  function Lower(c: char): (r: char)
    ensures 'A' <= c <= 'Z' ==> r as int == c as int + 32
    ensures !('A' <= c <= 'Z') ==> r == c
  {
    if 'A' <= c <= 'Z' then (c as int + 32) as char else c
  }

  /** `lit` (written in lower case) occurs at position `p` of `s`, ignoring ASCII case. */
  predicate CiAt(s: string, p: nat, lit: string) {
    p + |lit| <= |s| && forall i :: 0 <= i < |lit| ==> Lower(s[p + i]) == lit[i]
  }

  /** `lit` occurs somewhere in `s`, ignoring ASCII case. */
  predicate ContainsCi(s: string, lit: string) {
    exists p :: 0 <= p <= |s| && CiAt(s, p, lit)
  }

  /** `prefix` is an initial segment of `s`. */
  predicate StartsWith(s: string, prefix: string) {
    |prefix| <= |s| && s[..|prefix|] == prefix
  }

  /** All characters of `s[lo..hi]` are white space. */
  predicate AllSpace(s: string, lo: nat, hi: nat)
    requires lo <= hi <= |s|
  {
    forall i {:trigger IsSpace(s[i])} :: lo <= i < hi ==> IsSpace(s[i])
  }

  /** No character of `s[lo..hi]` is a line terminator. */
  predicate NoLineTerminator(s: string, lo: nat, hi: nat)
    requires lo <= hi <= |s|
  {
    forall i {:trigger IsLineTerminator(s[i])} :: lo <= i < hi ==> !IsLineTerminator(s[i])
  }

  /** A slice with no line terminator in it has none of its own. */
  lemma NoLineTerminatorSlice(s: string, lo: nat, hi: nat)
    requires lo <= hi <= |s| && NoLineTerminator(s, lo, hi)
    ensures NoLineTerminator(s[lo..hi], 0, hi - lo)
  {
    forall i | 0 <= i < hi - lo ensures !IsLineTerminator(s[lo..hi][i]) {
      assert s[lo..hi][i] == s[lo + i];
    }
  }

  /** Length of the longest run of white space starting at `i`. */
  function SpaceRun(s: string, i: nat): (n: nat)
    requires i <= |s|
    ensures i + n <= |s|
    ensures AllSpace(s, i, i + n)
    ensures i + n == |s| || !IsSpace(s[i + n])
    decreases |s| - i
  {
    if i < |s| && IsSpace(s[i]) then 1 + SpaceRun(s, i + 1) else 0
  }

  /** A white-space run of length `k` starts at `i` exactly when `k` is at most the longest one. */
  lemma SpaceRunBound(s: string, i: nat, k: nat)
    requires i + k <= |s|
    ensures AllSpace(s, i, i + k) <==> k <= SpaceRun(s, i)
  {
  }

  /** Length of the longest run of decimal digits starting at `i`. */
  function DigitRun(s: string, i: nat): (n: nat)
    requires i <= |s|
    ensures i + n <= |s|
    ensures forall j {:trigger IsDigit(s[j])} :: i <= j < i + n ==> IsDigit(s[j])
    ensures i + n == |s| || !IsDigit(s[i + n])
    decreases |s| - i
  {
    if i < |s| && IsDigit(s[i]) then 1 + DigitRun(s, i + 1) else 0
  }

  /** The end of the line that contains position `i`: the first line terminator at or after `i`, or `|s|`. */
  function LineEnd(s: string, i: nat): (e: nat)
    requires i <= |s|
    ensures i <= e <= |s|
    ensures NoLineTerminator(s, i, e)
    ensures e == |s| || IsLineTerminator(s[e])
    decreases |s| - i
  {
    if i < |s| && !IsLineTerminator(s[i]) then LineEnd(s, i + 1) else i
  }

  /** `s[i..e]` stays on one line exactly when `e` does not pass the end of that line. */
  lemma LineEndBound(s: string, i: nat, e: nat)
    requires i <= e <= |s|
    ensures NoLineTerminator(s, i, e) <==> e <= LineEnd(s, i)
  {
  }

  /** The end of `s[lo..hi]` once trailing white space is dropped. */
  function TrailingSpaceStart(s: string, lo: nat, hi: nat): (j: nat)
    requires lo <= hi <= |s|
    ensures lo <= j <= hi
    ensures AllSpace(s, j, hi)
    ensures j == lo || !IsSpace(s[j - 1])
    decreases hi - lo
  {
    if lo < hi && IsSpace(s[hi - 1]) then TrailingSpaceStart(s, lo, hi - 1) else hi
  }

  /** `r` sits at position `i` of `s` with only white space around it. */
  predicate Trimmed(s: string, i: nat, r: string) {
    i + |r| <= |s| && r == s[i..i + |r|] && AllSpace(s, 0, i) && AllSpace(s, i + |r|, |s|)
  }

  /**
   `s.trim()`: the result is a piece of `s` that neither starts nor ends with
   white space, and everything cut away on either side is white space.
   */
  function Trim(s: string): (r: string)
    ensures exists i :: 0 <= i <= |s| - |r| && Trimmed(s, i, r)
    ensures r == [] || (!IsSpace(r[0]) && !IsSpace(r[|r| - 1]))
  {
    var i := SpaceRun(s, 0);
    var j := TrailingSpaceStart(s, i, |s|);
    assert Trimmed(s, i, s[i..j]);
    s[i..j]
  }

  /** A string that neither starts nor ends with white space is its own trim. */
  lemma TrimUnchanged(s: string)
    requires s == [] || (!IsSpace(s[0]) && !IsSpace(s[|s| - 1]))
    ensures Trim(s) == s
  {
    if s != [] {
      assert SpaceRun(s, 0) == 0;
      assert TrailingSpaceStart(s, 0, |s|) == |s|;
    }
  }

  /** Trimming twice is trimming once. */
  lemma TrimIdempotent(s: string)
    ensures Trim(Trim(s)) == Trim(s)
  {
    var r := Trim(s);
    assert SpaceRun(r, 0) == 0;
    assert TrailingSpaceStart(r, 0, |r|) == |r|;
  }

  /** The first `n` characters, or all of `s` when it is shorter. */
  function Take(s: string, n: nat): (r: string)
    ensures |r| <= n && |r| <= |s|
    ensures r <= s
    ensures |s| <= n ==> r == s
    ensures |s| > n ==> |r| == n
  {
    if |s| <= n then s else s[..n]
  }

  /** The position of the first `c` in `s`. */
  function IndexOf(s: string, c: char): (i: nat)
    requires c in s
    ensures i < |s| && s[i] == c
    ensures c !in s[..i]
  {
    if s[0] == c then 0 else 1 + IndexOf(s[1..], c)
  }

  /** The pieces of `s` between occurrences of the one-character separator `c`. */
  function Split(s: string, c: char): (parts: seq<string>)
    ensures |parts| >= 1
    decreases |s|
  {
    if c in s then
      var i := IndexOf(s, c);
      [s[..i]] + Split(s[i + 1..], c)
    else
      [s]
  }

  /** No piece of a split holds the separator. */
  lemma {:induction false} SplitPieces(s: string, c: char)
    ensures forall k :: 0 <= k < |Split(s, c)| ==> c !in Split(s, c)[k]
    decreases |s|
  {
    if c in s {
      var i := IndexOf(s, c);
      SplitPieces(s[i + 1..], c);
      var rest := Split(s[i + 1..], c);
      assert Split(s, c) == [s[..i]] + rest;
    }
  }

  /** The parts in order, with `sep` between neighbours. */
  function Join(parts: seq<string>, sep: string): string
  {
    if |parts| == 0 then ""
    else if |parts| == 1 then parts[0]
    else parts[0] + sep + Join(parts[1..], sep)
  }

  /** Joining the pieces of a split with the separator gives back the string. */
  lemma {:induction false} JoinSplit(s: string, c: char)
    ensures Join(Split(s, c), [c]) == s
    decreases |s|
  {
    if c in s {
      var i := IndexOf(s, c);
      var rest := Split(s[i + 1..], c);
      JoinSplit(s[i + 1..], c);
      var parts := Split(s, c);
      assert parts == [s[..i]] + rest;
      assert |parts| >= 2 && parts[0] == s[..i] && parts[1..] == rest;
      JoinCons(parts, [c]);
      assert s == s[..i] + [c] + s[i + 1..];
    }
  }

  /** A join of two or more pieces is the first piece, the separator, and the join of the rest. */
  lemma JoinCons(parts: seq<string>, sep: string)
    requires |parts| >= 2
    ensures Join(parts, sep) == parts[0] + sep + Join(parts[1..], sep)
  {
  }

  /** Splitting a join of separator-free pieces gives back the pieces. */
  lemma {:induction false} SplitJoin(parts: seq<string>, c: char)
    requires |parts| >= 1
    requires forall i :: 0 <= i < |parts| ==> c !in parts[i]
    ensures Split(Join(parts, [c]), c) == parts
    decreases |parts|
  {
    if |parts| > 1 {
      var tail := Join(parts[1..], [c]);
      var s := parts[0] + [c] + tail;
      assert s[|parts[0]|] == c;
      assert c in s;
      IndexOfFirst(parts[0], c, tail);
      assert s[|parts[0]| + 1..] == tail;
      SplitJoin(parts[1..], c);
      assert s[..|parts[0]|] == parts[0];
    }
  }

  /** The first `c` in `a + [c] + b`, for `a` free of `c`, is right after `a`. */
  lemma IndexOfFirst(a: string, c: char, b: string)
    requires c !in a
    ensures c in a + [c] + b
    ensures IndexOf(a + [c] + b, c) == |a|
  {
    var s := a + [c] + b;
    assert s[|a|] == c;
    if |a| > 0 {
      assert s[1..] == a[1..] + [c] + b;
      IndexOfFirst(a[1..], c, b);
    }
  }

  /**
   Everything after the first `c`: dropping the first piece of a split and
   joining the rest with `c` keeps the later separators.
   */
  lemma JoinTailOfSplit(s: string, c: char)
    requires c in s
    ensures Join(Split(s, c)[1..], [c]) == s[IndexOf(s, c) + 1..]
  {
    SplitRest(s, c);
    JoinSplit(s[IndexOf(s, c) + 1..], c);
  }

  /** After the first piece, a split goes on with the split of what follows the first `c`. */
  lemma SplitRest(s: string, c: char)
    requires c in s
    ensures Split(s, c)[1..] == Split(s[IndexOf(s, c) + 1..], c)
  {
    SplitCons(s, c);
    DropFirst(s[..IndexOf(s, c)], Split(s[IndexOf(s, c) + 1..], c));
  }

  /** The first step of a split on a string that holds the separator. */
  lemma SplitCons(s: string, c: char)
    requires c in s
    ensures Split(s, c) == [s[..IndexOf(s, c)]] + Split(s[IndexOf(s, c) + 1..], c)
  {
  }

  lemma DropFirst<T>(x: T, rest: seq<T>)
    ensures ([x] + rest)[1..] == rest
  {
  }

  /** The character for a decimal digit value. */
  function DigitChar(d: nat): (c: char)
    requires d < 10
    ensures IsDigit(c)
    ensures c as int - '0' as int == d
  {
    ('0' as int + d) as char
  }

  /** Template-literal rendering `${n}` of a non-negative integer: its decimal digits. */
  function NatToString(n: nat): (s: string)
    ensures |s| >= 1
    ensures forall i :: 0 <= i < |s| ==> IsDigit(s[i])
    ensures |s| > 1 ==> s[0] != '0'
  {
    if n < 10 then [DigitChar(n)] else NatToString(n / 10) + [DigitChar(n % 10)]
  }

  /** The decimal value of a non-empty run of digits. */
  function ParseDigits(s: string): nat
    requires forall i :: 0 <= i < |s| ==> IsDigit(s[i])
  {
    if |s| == 0 then 0
    else
      assert IsDigit(s[|s| - 1]);
      ParseDigits(s[..|s| - 1]) * 10 + (s[|s| - 1] as int - '0' as int)
  }

  /** Reading back the decimal rendering of a number gives the number. */
  lemma {:induction false} ParseNatToString(n: nat)
    ensures ParseDigits(NatToString(n)) == n
  {
    if n >= 10 {
      var s := NatToString(n);
      assert s[..|s| - 1] == NatToString(n / 10);
      ParseNatToString(n / 10);
    }
  }
}
