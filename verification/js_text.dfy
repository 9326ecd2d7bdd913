/** The two string operations of the JavaScript runtime the chat client relies on:
    `String.prototype.trim` and the prefix taken by `substring(0, n)`. A Dafny
    character is a Unicode code point, which is one UTF-16 code unit only inside the
    Basic Multilingual Plane. */
module JsText {

  /** The characters `trim` removes: the ECMAScript WhiteSpace set (tab, vertical tab,
      form feed, space, no-break space, byte order mark and the other Unicode Zs
      spaces) together with the LineTerminator set (line feed, carriage return,
      line separator, paragraph separator). */
  predicate IsWhitespace(c: char) {
    var n := c as int;
    n == 0x09 || n == 0x0A || n == 0x0B || n == 0x0C || n == 0x0D || n == 0x20
    || n == 0xA0 || n == 0x1680 || (0x2000 <= n <= 0x200A)
    || n == 0x2028 || n == 0x2029 || n == 0x202F || n == 0x205F
    || n == 0x3000 || n == 0xFEFF
  }

  predicate AllWhitespace(s: string) {
    forall i :: 0 <= i < |s| ==> IsWhitespace(s[i])
  }

  /** Every character of `s` from `lo` up to (not including) `hi` is whitespace. */
  predicate WhitespaceBetween(s: string, lo: nat, hi: nat)
    requires lo <= hi <= |s|
  {
    forall k :: lo <= k < hi ==> IsWhitespace(s[k])
  }

  /** The first index at or after `i` holding a character that is not whitespace, or `|s|`
      when there is none. */
  function SkipForward(s: string, i: nat): (n: nat)
    requires i <= |s|
    ensures i <= n <= |s| && WhitespaceBetween(s, i, n)
    ensures n < |s| ==> !IsWhitespace(s[n])
    decreases |s| - i
  {
    if i < |s| && IsWhitespace(s[i]) then SkipForward(s, i + 1) else i
  }

  /** Scanning back from `j` towards `lo`: the index just after the last character that is
      not whitespace, or `lo` when there is none. */
  function SkipBackward(s: string, lo: nat, j: nat): (e: nat)
    requires lo <= j <= |s|
    ensures lo <= e <= j && WhitespaceBetween(s, e, j)
    ensures lo < e ==> !IsWhitespace(s[e - 1])
    decreases j
  {
    if lo < j && IsWhitespace(s[j - 1]) then SkipBackward(s, lo, j - 1) else j
  }

  /** `s.trim()`: the piece of `s` that starts at its first character that is not
      whitespace, with only whitespace before and after it, and neither starting nor
      ending with whitespace. */
  function Trim(s: string): (r: string)
    ensures var a := SkipForward(s, 0);
            && a + |r| <= |s| && r == s[a..a + |r|]
            && WhitespaceBetween(s, 0, a) && WhitespaceBetween(s, a + |r|, |s|)
    ensures r == [] || (!IsWhitespace(r[0]) && !IsWhitespace(r[|r| - 1]))
  {
    var a := SkipForward(s, 0);
    s[a..SkipBackward(s, a, |s|)]
  }

  /** A string trims to empty exactly when it is all whitespace. */
  lemma {:induction false} TrimEmptyIff(s: string)
    ensures Trim(s) == [] <==> AllWhitespace(s)
  {
    var r := Trim(s);
    var a := SkipForward(s, 0);
    if r == [] {
      assert a == |s|;
      assert WhitespaceBetween(s, 0, a);
    } else {
      assert r[0] == s[a];
    }
  }

  /** Trimming a trimmed string changes nothing. */
  lemma {:induction false} TrimIdempotent(s: string)
    ensures Trim(Trim(s)) == Trim(s)
  {
    var r := Trim(s);
    if r != [] {
      assert SkipForward(r, 0) == 0;
      assert SkipBackward(r, 0, |r|) == |r|;
      assert r[0..|r|] == r;
    }
  }

  /** The first `n` characters, or the whole string when it is shorter. */
  function Prefix(s: string, n: nat): (r: string)
    ensures |r| == if |s| <= n then |s| else n
    ensures r <= s
  {
    if |s| <= n then s else s[..n]
  }
}
