/**
 * The two JavaScript string primitives the core relies on: `String.prototype.trim`
 * (the chat input gate) and `String.prototype.length`, which counts UTF-16 code
 * units (the campaign prompt gate). Dafny strings are sequences of Unicode scalar
 * values, so the code-unit count is defined here explicitly.
 */
module Text {

  /**
   * The code points `trim` removes: the ECMAScript WhiteSpace set (tab, vertical tab,
   * form feed, space, no-break space, byte order mark and the Zs space separators)
   * and the LineTerminator set (line feed, carriage return, U+2028, U+2029).
   */
  predicate IsWhitespace(c: char) {
    var n := c as int;
    n == 0x09 || n == 0x0A || n == 0x0B || n == 0x0C || n == 0x0D ||
    n == 0x20 || n == 0xA0 || n == 0x1680 || (0x2000 <= n <= 0x200A) ||
    n == 0x2028 || n == 0x2029 || n == 0x202F || n == 0x205F || n == 0x3000 ||
    n == 0xFEFF
  }

  /** Every character of `s` is whitespace (the empty string included). */
  predicate IsBlank(s: string) {
    forall i :: 0 <= i < |s| ==> IsWhitespace(s[i])
  }

  /**
   * The first index at or after `i` that does not hold whitespace (`|s|` if none):
   * the scan `trim` makes from the front.
   */
  function SkipLeading(s: string, i: nat): (j: nat)
    requires i <= |s|
    ensures i <= j <= |s|
    ensures forall m :: i <= m < j ==> IsWhitespace(s[m])
    ensures j < |s| ==> !IsWhitespace(s[j])
    decreases |s| - i
  {
    if i < |s| && IsWhitespace(s[i]) then SkipLeading(s, i + 1) else i
  }

  /**
   * The end of `s[lo..j]` once its trailing whitespace is dropped: the scan `trim`
   * makes from the back, never crossing `lo`.
   */
  function SkipTrailing(s: string, lo: nat, j: nat): (e: nat)
    requires lo <= j <= |s|
    ensures lo <= e <= j
    ensures forall m :: e <= m < j ==> IsWhitespace(s[m])
    ensures lo < e ==> !IsWhitespace(s[e - 1])
  {
    if lo < j && IsWhitespace(s[j - 1]) then SkipTrailing(s, lo, j - 1) else j
  }

  /**
   * `String.prototype.trim`: the infix of `s` left after removing whitespace from
   * both ends. It is empty exactly when `s` is blank, and otherwise starts and ends
   * with a non-whitespace character.
   */
  function Trim(s: string): (r: string)
    ensures r == [] <==> IsBlank(s)
    ensures r != [] ==> !IsWhitespace(r[0]) && !IsWhitespace(r[|r| - 1])
    ensures exists k :: 0 <= k <= |s| - |r| && r == s[k..k + |r|] && IsBlank(s[..k]) && IsBlank(s[k + |r|..])
  {
    var i := SkipLeading(s, 0);
    var e := SkipTrailing(s, i, |s|);
    assert IsBlank(s[..i]) && IsBlank(s[e..]);
    s[i..e]
  }

  /**
   * Trimming is fully determined by that characterisation: any infix of `s` whose
   * margins are blank and whose ends are not whitespace is the trimmed string.
   */
  lemma TrimUnique(s: string, k: nat, t: string)
    requires k + |t| <= |s| && t == s[k..k + |t|]
    requires IsBlank(s[..k]) && IsBlank(s[k + |t|..])
    requires t == [] || (!IsWhitespace(t[0]) && !IsWhitespace(t[|t| - 1]))
    ensures Trim(s) == t
  {}

  /** Trimming an already trimmed string changes nothing. */
  lemma TrimIdempotent(s: string)
    ensures Trim(Trim(s)) == Trim(s)
  {}

  /** A string with no character outside the Basic Multilingual Plane. */
  predicate IsBmp(s: string) {
    forall i :: 0 <= i < |s| ==> s[i] as int <= 0xFFFF
  }

  /**
   * JavaScript's `length`: the number of UTF-16 code units, one per character in
   * the Basic Multilingual Plane and two (a surrogate pair) per character above it.
   */
  function Utf16Length(s: string): (n: nat)
    ensures |s| <= n <= 2 * |s|
  {
    if s == [] then 0
    else (if s[0] as int > 0xFFFF then 2 else 1) + Utf16Length(s[1..])
  }

  /** The code-unit count equals the character count exactly when no surrogate pair is needed. */
  lemma {:induction false} Utf16LengthIsLengthIffBmp(s: string)
    ensures Utf16Length(s) == |s| <==> IsBmp(s)
  {
    if s != [] {
      Utf16LengthIsLengthIffBmp(s[1..]);
      assert IsBmp(s) <==> s[0] as int <= 0xFFFF && IsBmp(s[1..]) by {
        if s[0] as int <= 0xFFFF && IsBmp(s[1..]) {
          forall i | 0 < i < |s| ensures s[i] as int <= 0xFFFF { assert s[i] == s[1..][i - 1]; }
        }
      }
    }
  }
}
