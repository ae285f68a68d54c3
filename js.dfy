/** The pieces of JavaScript's runtime behaviour the application relies on:
    values that may be absent, the truthiness rules behind `||` and `if`,
    `String.prototype.trim`, `substring(0, n)` and `split(sep)[0]`. */
module Js {

  /** A value that may be missing (`undefined` or `null`). */
  datatype Option<+T> = None | Some(value: T)

  /** `if (x)` on a possibly missing string: `""` and a missing value are falsy. */
  predicate TruthyString(x: Option<string>) {
    x.Some? && x.value != ""
  }

  /** `if (x)` on a possibly missing number: `0` and a missing value are falsy. */
  predicate TruthyNumber(x: Option<int>) {
    x.Some? && x.value != 0
  }

  /** `x || d` on a possibly missing number. */
  function NumberOr(x: Option<int>, d: int): int {
    if TruthyNumber(x) then x.value else d
  }

  /** A nullable number where `>=` or `+` converts it: `null` becomes 0. */
  function NullAsZero(x: Option<int>): int {
    if x.Some? then x.value else 0
  }

  /** `x || d` on a possibly missing string. */
  function StringOr(x: Option<string>, d: string): string {
    if TruthyString(x) then x.value else d
  }

  /** The characters `trim` removes: the WhiteSpace and LineTerminator
      productions of ECMAScript. */
  predicate IsWhitespace(c: char) {
    c == ' ' || c == '\t' || c == '\n' || c == '\r'
    || c == '\U{000B}' || c == '\U{000C}' || c == '\U{00A0}' || c == '\U{1680}'
    || ('\U{2000}' <= c <= '\U{200A}')
    || c == '\U{2028}' || c == '\U{2029}' || c == '\U{202F}' || c == '\U{205F}'
    || c == '\U{3000}' || c == '\U{FEFF}'
  }

  /** Every character of `s` is whitespace (so `s.trim()` is falsy). */
  predicate Blank(s: string) {
    forall i :: 0 <= i < |s| ==> IsWhitespace(s[i])
  }

  /** The first index at or after `i` that does not hold whitespace, or
      `|s|` when there is none. */
  function SkipForward(s: string, i: nat): (k: nat)
    requires i <= |s|
    ensures i <= k <= |s|
    ensures forall j :: i <= j < k ==> IsWhitespace(s[j])
    ensures k < |s| ==> !IsWhitespace(s[k])
    decreases |s| - i
  {
    if i < |s| && IsWhitespace(s[i]) then SkipForward(s, i + 1) else i
  }

  /** The smallest `k` with `lo <= k <= j` such that `s[k..j]` is all
      whitespace. */
  function SkipBackward(s: string, lo: nat, j: nat): (k: nat)
    requires lo <= j <= |s|
    ensures lo <= k <= j
    ensures forall m :: k <= m < j ==> IsWhitespace(s[m])
    ensures k > lo ==> !IsWhitespace(s[k - 1])
  {
    if j > lo && IsWhitespace(s[j - 1]) then SkipBackward(s, lo, j - 1) else j
  }

  /** Where `Trim(s)` starts inside `s`. */
  function TrimStartIndex(s: string): (a: nat)
    ensures a <= |s|
  {
    SkipForward(s, 0)
  }

  /** `s.trim()`: the contiguous piece of `s` that starts at
      `TrimStartIndex(s)`; only whitespace lies around it, it begins and ends
      with a character that is not whitespace, and it is empty exactly when
      `s` is blank. */
  function Trim(s: string): (r: string)
    ensures TrimStartIndex(s) + |r| <= |s|
    ensures r == s[TrimStartIndex(s)..TrimStartIndex(s) + |r|]
    ensures Blank(s[..TrimStartIndex(s)]) && Blank(s[TrimStartIndex(s) + |r|..])
    ensures r != [] ==> !IsWhitespace(r[0]) && !IsWhitespace(r[|r| - 1])
    ensures r == [] <==> Blank(s)
  {
    var a := SkipForward(s, 0);
    var b := SkipBackward(s, a, |s|);
    assert a < |s| ==> a < b;
    s[a..b]
  }

  /** `s.substring(0, n)` for `n >= 0`: the first `n` characters, or all of
      `s` when it is shorter. */
  function Prefix(s: string, n: nat): (r: string)
    ensures r <= s
    ensures |r| == if |s| < n then |s| else n
  {
    if |s| < n then s else s[..n]
  }

  /** `s.split(sep)[0]`: everything before the first `sep`, or all of `s`
      when `sep` does not occur. */
  function BeforeFirst(s: string, sep: char): (r: string)
    ensures r <= s
    ensures sep !in r
    ensures |r| < |s| ==> s[|r|] == sep
  {
    if |s| == 0 || s[0] == sep then "" else [s[0]] + BeforeFirst(s[1..], sep)
  }

  /** A string without the separator is its own first piece. */
  lemma BeforeFirstAbsent(s: string, sep: char)
    requires sep !in s
    ensures BeforeFirst(s, sep) == s
  {
  }

  /** Trimming twice is trimming once. */
  lemma {:induction false} TrimIdempotent(s: string)
    ensures Trim(Trim(s)) == Trim(s)
  {
    var r := Trim(s);
    if r != [] {
      assert SkipForward(r, 0) == 0;
      assert SkipBackward(r, 0, |r|) == |r|;
    }
  }
}
