/**
 * The string operations the core relies on: white-space trimming, invariant
 * upper/lower casing, splitting on one separator, joining and substring search.
 * White space and casing cover the ASCII range only.
 */
module Text {

  /** The characters that `Trim` and number parsing skip: the space and U+0009..U+000D. */
  predicate IsWhiteSpace(c: char) {
    c == ' ' || c == '\t' || c == '\n' || c == '\U{B}' || c == '\U{C}' || c == '\r'
  }

  /** The index of the first non-blank character of `s` at or after `i` (`|s|` if there is none). */
  function SkipBlank(s: string, i: nat): (j: nat)
    requires i <= |s|
    ensures i <= j <= |s|
    ensures forall k :: i <= k < j ==> IsWhiteSpace(s[k])
    ensures j == |s| || !IsWhiteSpace(s[j])
    decreases |s| - i
  {
    if i < |s| && IsWhiteSpace(s[i]) then SkipBlank(s, i + 1) else i
  }

  /** The end of `s` once trailing white space down to index `lo` is dropped. */
  function DropBlankEnd(s: string, lo: nat, j: nat): (e: nat)
    requires lo <= j <= |s|
    ensures lo <= e <= j
    ensures forall k :: e <= k < j ==> IsWhiteSpace(s[k])
    ensures e == lo || !IsWhiteSpace(s[e - 1])
    decreases j - lo
  {
    if j > lo && IsWhiteSpace(s[j - 1]) then DropBlankEnd(s, lo, j - 1) else j
  }

  /** Where the text left by `Trim` starts in `s`. */
  function TrimFrom(s: string): nat {
    SkipBlank(s, 0)
  }

  /** Where the text left by `Trim` ends in `s`. */
  function TrimTo(s: string): (e: nat)
    ensures TrimFrom(s) <= e <= |s|
  {
    DropBlankEnd(s, TrimFrom(s), |s|)
  }

  /** JavaScript's `trimStart()`: `s` without its leading white space. */
  function TrimStart(s: string): string {
    s[TrimFrom(s)..]
  }

  /** C#'s `string.Trim()`: `s` without leading and trailing white space. */
  function Trim(s: string): string {
    s[TrimFrom(s)..TrimTo(s)]
  }

  /** `s` is null-or-white-space in C#'s sense: every character is white space. */
  predicate IsBlank(s: string) {
    forall i :: 0 <= i < |s| ==> IsWhiteSpace(s[i])
  }

  /** What `Trim` removes is white space, and what it keeps starts and ends with a non-blank character. */
  lemma {:induction false} TrimShape(s: string)
    ensures forall k :: 0 <= k < TrimFrom(s) ==> IsWhiteSpace(s[k])
    ensures forall k :: TrimTo(s) <= k < |s| ==> IsWhiteSpace(s[k])
    ensures Trim(s) == [] || (!IsWhiteSpace(Trim(s)[0]) && !IsWhiteSpace(Trim(s)[|Trim(s)| - 1]))
  {
    var a, b := TrimFrom(s), TrimTo(s);
    if a < b {
      assert Trim(s)[0] == s[a];
      assert Trim(s)[|Trim(s)| - 1] == s[b - 1];
    }
  }

  /** Trimming leaves nothing exactly when the string is blank. */
  lemma {:induction false} TrimEmptyIffBlank(s: string)
    ensures Trim(s) == [] <==> IsBlank(s)
  {
    var a := TrimFrom(s);
    if a < |s| {
      assert !IsWhiteSpace(s[a]);
      assert TrimTo(s) > a;
    }
  }

  /** Trimming is idempotent. */
  lemma {:induction false} TrimIdempotent(s: string)
    ensures Trim(Trim(s)) == Trim(s)
  {
    var t := Trim(s);
    TrimShape(s);
    if t != [] {
      assert TrimFrom(t) == 0;
      assert TrimTo(t) == |t|;
    }
  }

  /** A string that neither starts nor ends with white space is its own trim. */
  lemma {:induction false} TrimNoBlankEnds(s: string)
    requires s != [] && !IsWhiteSpace(s[0]) && !IsWhiteSpace(s[|s| - 1])
    ensures Trim(s) == s
  {
    assert TrimFrom(s) == 0;
    assert TrimTo(s) == |s|;
  }

  /** Blank padding on either side of a text with non-blank ends is exactly what `Trim` removes. */
  lemma TrimPadded(p: string, v: string, q: string)
    requires IsBlank(p) && IsBlank(q)
    requires v != [] && !IsWhiteSpace(v[0]) && !IsWhiteSpace(v[|v| - 1])
    ensures Trim(p + v + q) == v
  {
    var s := p + v + q;
    assert s[|p|] == v[0];
    assert s[|p| + |v| - 1] == v[|v| - 1];
    assert TrimFrom(s) == |p|;
    assert TrimTo(s) == |p| + |v|;
    assert s[|p|..|p| + |v|] == v;
  }

  /** C#'s `char.ToUpperInvariant` on ASCII letters. */
  function UpperChar(c: char): char {
    if 'a' <= c <= 'z' then (c as int - 32) as char else c
  }

  /** C#'s `char.ToLowerInvariant` on ASCII letters. */
  function LowerChar(c: char): char {
    if 'A' <= c <= 'Z' then (c as int + 32) as char else c
  }

  /** `s.ToUpperInvariant()`. */
  function ToUpper(s: string): (r: string)
    ensures |r| == |s|
    ensures forall i :: 0 <= i < |s| ==> r[i] == UpperChar(s[i])
  {
    seq(|s|, i requires 0 <= i < |s| => UpperChar(s[i]))
  }

  /** `s.ToLower()` / `s.toLowerCase()`. */
  function ToLower(s: string): (r: string)
    ensures |r| == |s|
    ensures forall i :: 0 <= i < |s| ==> r[i] == LowerChar(s[i])
  {
    seq(|s|, i requires 0 <= i < |s| => LowerChar(s[i]))
  }

  /** Upper-casing an upper-cased string changes nothing, so upper-cased keys are stable. */
  lemma {:induction false} ToUpperIdempotent(s: string)
    ensures ToUpper(ToUpper(s)) == ToUpper(s)
  {
  }

  /** Lower-casing an already lower-cased string changes nothing. */
  lemma {:induction false} ToLowerIdempotent(s: string)
    ensures ToLower(ToLower(s)) == ToLower(s)
  {
  }

  /** Lower-casing a string that contains no upper-case letter changes nothing. */
  lemma {:induction false} ToLowerOfLower(s: string)
    requires forall i :: 0 <= i < |s| ==> !('A' <= s[i] <= 'Z')
    ensures ToLower(s) == s
  {
  }

  /** C#'s `s.Split(sep)`: the pieces between occurrences of `sep`, empty pieces kept. */
  function Split(s: string, sep: char): (parts: seq<string>)
    ensures |parts| >= 1
    ensures forall k :: 0 <= k < |parts| ==> sep !in parts[k]
  {
    if |s| == 0 then [""]
    else
      var rest := Split(s[1..], sep);
      if s[0] == sep then [""] + rest
      else [[s[0]] + rest[0]] + rest[1..]
  }

  /** `string.Join(sep, xs)` / `xs.join(sep)`. */
  function Join(xs: seq<string>, sep: string): string {
    if |xs| == 0 then ""
    else if |xs| == 1 then xs[0]
    else xs[0] + sep + Join(xs[1..], sep)
  }

  /** Joining the pieces of a split with the separator gives back the original string. */
  lemma {:induction false} JoinSplit(s: string, sep: char)
    ensures Join(Split(s, sep), [sep]) == s
  {
    if |s| > 0 {
      var rest := Split(s[1..], sep);
      JoinSplit(s[1..], sep);
      if s[0] == sep {
        assert Split(s, sep) == [""] + rest;
        assert ([""] + rest)[1..] == rest;
        assert s == [sep] + s[1..];
      } else {
        var parts := Split(s, sep);
        assert parts == [[s[0]] + rest[0]] + rest[1..];
        if |rest| == 1 {
          assert parts == [[s[0]] + rest[0]];
          assert s == [s[0]] + s[1..];
        } else {
          assert parts[1..] == rest[1..];
          assert Join(rest, [sep]) == rest[0] + [sep] + Join(rest[1..], [sep]);
          assert s == [s[0]] + s[1..];
        }
      }
    }
  }

  /** Splitting a join of separator-free pieces gives back the pieces. */
  lemma {:induction false} SplitJoin(xs: seq<string>, sep: char)
    requires |xs| >= 1
    requires forall k :: 0 <= k < |xs| ==> sep !in xs[k]
    ensures Split(Join(xs, [sep]), sep) == xs
  {
    if |xs| == 1 {
      SplitNoSep(xs[0], sep);
    } else {
      SplitJoin(xs[1..], sep);
      SplitAppend(xs[0], Join(xs[1..], [sep]), sep);
      assert xs == [xs[0]] + xs[1..];
    }
  }

  /** A string without the separator splits into itself. */
  lemma {:induction false} SplitNoSep(s: string, sep: char)
    requires sep !in s
    ensures Split(s, sep) == [s]
  {
    if |s| > 0 {
      SplitNoSep(s[1..], sep);
      assert s == [s[0]] + s[1..];
    }
  }

  /** Splitting `a + sep + b` where `a` holds no separator puts `a` first, then the pieces of `b`. */
  lemma {:induction false} SplitAppend(a: string, b: string, sep: char)
    requires sep !in a
    ensures Split(a + [sep] + b, sep) == [a] + Split(b, sep)
  {
    if |a| == 0 {
      assert a + [sep] + b == [sep] + b;
      assert ([sep] + b)[1..] == b;
    } else {
      SplitAppend(a[1..], b, sep);
      assert (a + [sep] + b)[1..] == a[1..] + [sep] + b;
      assert a == [a[0]] + a[1..];
    }
  }

  /** `s.includes(sub)` / `s.Contains(sub)`: `sub` occurs in `s` at some position. */
  predicate Contains(s: string, sub: string) {
    exists i :: 0 <= i <= |s| - |sub| && OccursAt(s, sub, i)
  }

  /** `sub` occurs in `s` starting at position `i`. */
  predicate OccursAt(s: string, sub: string, i: int)
    requires 0 <= i <= |s| - |sub|
  {
    s[i..i + |sub|] == sub
  }
}
