/**
 * The JavaScript string operations the core relies on: the `\s` character
 * class (which is also what `String.prototype.trim` removes), `trim`,
 * `toLowerCase` on ASCII letters, and `includes`.
 */
module JsText {

  /** A character matched by `\s`: WhiteSpace and LineTerminator of ECMAScript. */
  predicate IsWhitespace(c: char) {
    var n := c as int;
    || n == 0x09 || n == 0x0A || n == 0x0B || n == 0x0C || n == 0x0D || n == 0x20
    || n == 0xA0 || n == 0x1680 || (0x2000 <= n <= 0x200A)
    || n == 0x2028 || n == 0x2029 || n == 0x202F || n == 0x205F || n == 0x3000 || n == 0xFEFF
  }

  predicate NoWhitespace(s: string) {
    forall j :: 0 <= j < |s| ==> !IsWhitespace(s[j])
  }

  /** Whitespace removed from the front. */
  function TrimStart(s: string): (r: string)
    ensures r == [] || !IsWhitespace(r[0])
    ensures |r| <= |s| && r == s[|s| - |r|..]
    ensures forall j :: 0 <= j < |s| - |r| ==> IsWhitespace(s[j])
    decreases |s|
  {
    if s != [] && IsWhitespace(s[0]) then TrimStart(s[1..]) else s
  }

  /** Whitespace removed from the back. */
  function TrimEnd(s: string): (r: string)
    ensures r == [] || !IsWhitespace(r[|r| - 1])
    ensures |r| <= |s| && r == s[..|r|]
    ensures forall j :: |r| <= j < |s| ==> IsWhitespace(s[j])
    decreases |s|
  {
    if s != [] && IsWhitespace(s[|s| - 1]) then TrimEnd(s[..|s| - 1]) else s
  }

  /** `s.trim()`: no whitespace is left at either end, and a string without whitespace is unchanged. */
  function Trim(s: string): (r: string)
    ensures |r| <= |s|
    ensures r == [] || (!IsWhitespace(r[0]) && !IsWhitespace(r[|r| - 1]))
    ensures NoWhitespace(s) ==> r == s
  {
    TrimEnd(TrimStart(s))
  }

  /** `r` occurs in `s` at `k`, and everything of `s` before and after it is whitespace. */
  predicate PaddedAt(s: string, r: string, k: int) {
    && OccursAt(s, r, k)
    && (forall j :: 0 <= j < k ==> IsWhitespace(s[j]))
    && (forall j :: k + |r| <= j < |s| ==> IsWhitespace(s[j]))
  }

  /** `trim` removes nothing but whitespace: the result is a piece of `s` with only whitespace around it. */
  lemma TrimBounds(s: string)
    ensures exists k :: PaddedAt(s, Trim(s), k)
  {
    var t := TrimStart(s);
    var r := TrimEnd(t);
    var k := |s| - |t|;
    assert OccursAt(s, r, k);
    forall j | k + |r| <= j < |s| ensures IsWhitespace(s[j]) {
      assert s[j] == t[j - k];
    }
    assert Trim(s) == r && PaddedAt(s, r, k);
  }

  /** `trim` changes nothing on a string without whitespace at its ends. */
  lemma TrimOfTrimmed(s: string)
    requires s == [] || (!IsWhitespace(s[0]) && !IsWhitespace(s[|s| - 1]))
    ensures Trim(s) == s
  {
  }

  predicate IsAsciiUpper(c: char) {
    'A' <= c <= 'Z'
  }

  function LowerChar(c: char): (d: char)
    ensures !IsAsciiUpper(d)
    ensures IsWhitespace(d) <==> IsWhitespace(c)
  {
    if IsAsciiUpper(c) then (c as int + 32) as char else c
  }

  /** `s.toLowerCase()`, on the ASCII letters. */
  function ToLower(s: string): (r: string)
    ensures |r| == |s|
    ensures forall j :: 0 <= j < |s| ==> r[j] == LowerChar(s[j])
  {
    seq(|s|, j requires 0 <= j < |s| => LowerChar(s[j]))
  }

  /** `sub` occurs in `s` starting at index `i`. */
  predicate OccursAt(s: string, sub: string, i: int) {
    0 <= i <= |s| - |sub| && s[i..i + |sub|] == sub
  }

  /**
   * `s.includes(sub)`: only a string no longer than `s` can occur in it,
   * and every prefix of `s` does.
   */
  predicate Contains(s: string, sub: string)
    ensures Contains(s, sub) ==> |sub| <= |s|
    ensures |sub| <= |s| && s[..|sub|] == sub ==> Contains(s, sub)
  {
    assert |sub| <= |s| && s[..|sub|] == sub ==> OccursAt(s, sub, 0);
    exists i :: 0 <= i <= |s| - |sub| && OccursAt(s, sub, i)
  }
}
