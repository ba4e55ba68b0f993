/**
 * The JavaScript string primitives the application relies on, over `string`
 * (a sequence of Unicode scalar values): `indexOf`, `includes`, `replace` with a
 * string pattern, `trim`, `toLowerCase`, `split(' ')[0]`, `join` and the ASCII
 * regular-expression classes `\w` and `\b`; and the truthiness of a string.
 */
module Text {
  import opened Options

  /** JavaScript truthiness of an optional string (`undefined`/`null` or a string): present and non-empty. */
  predicate Truthy(s: Option<string>) {
    s.Some? && s.value != ""
  }

  /** `pat` occurs in `s` starting at index `i`. */
  predicate OccursAt(s: string, pat: string, i: nat) {
    i + |pat| <= |s| && s[i..i + |pat|] == pat
  }

  /** `s.indexOf(pat, from)`: the least index at or after `from` where `pat` occurs. */
  function IndexFrom(s: string, pat: string, from: nat): (r: Option<nat>)
    requires from <= |s|
    ensures r.Some? ==> from <= r.value && OccursAt(s, pat, r.value)
    ensures r.Some? ==> forall j: nat :: from <= j < r.value ==> !OccursAt(s, pat, j)
    ensures r.None? ==> forall j: nat :: from <= j ==> !OccursAt(s, pat, j)
    decreases |s| - from
  {
    if OccursAt(s, pat, from) then Some(from)
    else if from + |pat| >= |s| then None
    else IndexFrom(s, pat, from + 1)
  }

  /** `s.includes(sub)`. */
  predicate Includes(s: string, sub: string) {
    IndexFrom(s, sub, 0).Some?
  }

  /**
   * `s.replace(pat, rep)` with a string pattern: only the FIRST occurrence of
   * `pat` is replaced (the replacement strings used here hold no `$` patterns).
   */
  function ReplaceFirst(s: string, pat: string, rep: string): string {
    match IndexFrom(s, pat, 0)
    case None => s
    case Some(i) => s[..i] + rep + s[i + |pat|..]
  }

  /** Without an occurrence nothing changes; otherwise the earliest occurrence, and only it, is replaced. */
  lemma ReplaceFirstSpec(s: string, pat: string, rep: string)
    ensures (forall j: nat :: !OccursAt(s, pat, j)) ==> ReplaceFirst(s, pat, rep) == s
    ensures forall i: nat ::
      OccursAt(s, pat, i) && (forall j: nat :: j < i ==> !OccursAt(s, pat, j)) ==>
        ReplaceFirst(s, pat, rep) == s[..i] + rep + s[i + |pat|..]
  {
    var r := IndexFrom(s, pat, 0);
    forall i: nat | OccursAt(s, pat, i) && (forall j: nat :: j < i ==> !OccursAt(s, pat, j))
      ensures ReplaceFirst(s, pat, rep) == s[..i] + rep + s[i + |pat|..]
    {
      assert r.Some?;
    }
  }

  /**
   * The characters `String.prototype.trim` removes: the ECMAScript WhiteSpace
   * (TAB, VT, FF, ZWNBSP and every Unicode space separator) and LineTerminator
   * (LF, CR, LS, PS) code points.
   */
  predicate IsJsSpace(c: char) {
    var n := c as int;
    n == 0x09 || n == 0x0A || n == 0x0B || n == 0x0C || n == 0x0D || n == 0x20 ||
    n == 0xA0 || n == 0x1680 || (0x2000 <= n <= 0x200A) || n == 0x2028 || n == 0x2029 ||
    n == 0x202F || n == 0x205F || n == 0x3000 || n == 0xFEFF
  }

  /** Every character of `s` is white space (`s.trim() === ''`). */
  predicate IsBlank(s: string) {
    forall k :: 0 <= k < |s| ==> IsJsSpace(s[k])
  }

  /** The number of white-space characters at the start of `s`. */
  function LeadingSpaces(s: string): (n: nat)
    ensures n <= |s|
    ensures forall k :: 0 <= k < n ==> IsJsSpace(s[k])
    ensures n < |s| ==> !IsJsSpace(s[n])
  {
    if s != [] && IsJsSpace(s[0]) then 1 + LeadingSpaces(s[1..]) else 0
  }

  /** The number of white-space characters at the end of `s`. */
  function TrailingSpaces(s: string): (n: nat)
    ensures n <= |s|
    ensures forall k :: |s| - n <= k < |s| ==> IsJsSpace(s[k])
    ensures n < |s| ==> !IsJsSpace(s[|s| - 1 - n])
  {
    if s != [] && IsJsSpace(s[|s| - 1]) then 1 + TrailingSpaces(s[..|s| - 1]) else 0
  }

  /** `r` is `s` with the white space before index `i` and after `r` removed. */
  ghost predicate TrimmedAt(s: string, r: string, i: nat) {
    i + |r| <= |s| && s[i..i + |r|] == r &&
    (forall k :: 0 <= k < i ==> IsJsSpace(s[k])) &&
    (forall k :: i + |r| <= k < |s| ==> IsJsSpace(s[k]))
  }

  /** `s.trim()`: white space removed from both ends, and no more. */
  function Trim(s: string): (r: string)
    ensures exists i: nat :: TrimmedAt(s, r, i)
    ensures r != [] ==> !IsJsSpace(r[0]) && !IsJsSpace(r[|r| - 1])
  {
    var i := LeadingSpaces(s);
    var rest := s[i..];
    var r := rest[..|rest| - TrailingSpaces(rest)];
    assert TrimmedAt(s, r, i);
    r
  }

  /** Trimming leaves nothing exactly when the string is all white space. */
  lemma TrimEmptyIffBlank(s: string)
    ensures Trim(s) == [] <==> IsBlank(s)
  {
    var r := Trim(s);
    var i: nat :| TrimmedAt(s, r, i);
    if r == [] {
      forall k | 0 <= k < |s| ensures IsJsSpace(s[k]) {
        if k < i { } else { assert i + |r| <= k; }
      }
    } else {
      assert s[i] == r[0];
    }
  }

  /** `\w` in a JavaScript regular expression without the `u` flag: ASCII only. */
  predicate IsWordChar(c: char) {
    ('a' <= c <= 'z') || ('A' <= c <= 'Z') || ('0' <= c <= '9') || c == '_'
  }

  /** `toUpperCase` of an ASCII word character: a lower-case letter becomes upper case. */
  function UpperAscii(c: char): (u: char)
    ensures IsWordChar(u) == IsWordChar(c)
    ensures 'a' <= c <= 'z' ==> 'A' <= u <= 'Z' && u as int == c as int - 32
    ensures !('a' <= c <= 'z') ==> u == c
  {
    if 'a' <= c <= 'z' then (c as int - 32) as char else c
  }

  /** `toLowerCase` of one character, for the ASCII and Latin-1 upper-case letters. */
  function LowerChar(c: char): char {
    var n := c as int;
    if ('A' <= c <= 'Z') || (0xC0 <= n <= 0xDE && n != 0xD7) then (n + 32) as char else c
  }

  /** `s.toLowerCase()`, character by character. */
  function Lower(s: string): (r: string) {
    seq(|s|, k requires 0 <= k < |s| => LowerChar(s[k]))
  }

  /** `s.split(' ')[0]`: everything before the first space, or all of `s`. */
  function FirstWord(s: string): (r: string)
    ensures |r| <= |s| && r == s[..|r|]
    ensures ' ' !in r
    ensures |r| < |s| ==> s[|r|] == ' '
  {
    if s == [] || s[0] == ' ' then [] else [s[0]] + FirstWord(s[1..])
  }

  /** `xs.join(sep)`. */
  function Join(xs: seq<string>, sep: string): string {
    if |xs| == 0 then ""
    else if |xs| == 1 then xs[0]
    else xs[0] + sep + Join(xs[1..], sep)
  }

  /** Every joined element appears in the joined text, at an offset. */
  lemma {:induction false} JoinContains(xs: seq<string>, sep: string, k: nat)
    requires k < |xs|
    ensures exists p: nat :: OccursAt(Join(xs, sep), xs[k], p)
  {
    var j := Join(xs, sep);
    if |xs| == 1 {
      assert OccursAt(j, xs[0], 0);
    } else if k == 0 {
      assert j[..|xs[0]|] == xs[0];
      assert OccursAt(j, xs[0], 0);
    } else {
      JoinContains(xs[1..], sep, k - 1);
      var rest := Join(xs[1..], sep);
      var p: nat :| OccursAt(rest, xs[1..][k - 1], p);
      var off := |xs[0] + sep|;
      assert j == xs[0] + sep + rest;
      assert j[off + p..off + p + |xs[k]|] == rest[p..p + |xs[k]|];
      assert OccursAt(j, xs[k], off + p);
    }
  }
}
