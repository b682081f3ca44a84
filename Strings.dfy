/** String helpers shared by the browser code and the backend: prefix and
    suffix tests, and the whitespace set and `trim` of ECMAScript. */
module Strings {

  predicate StartsWith(s: string, prefix: string)
  {
    |prefix| <= |s| && s[..|prefix|] == prefix
  }

  predicate EndsWith(s: string, suffix: string)
  {
    |suffix| <= |s| && s[|s| - |suffix|..] == suffix
  }

  /** True iff `needle` occurs in `s` as a contiguous block (Python's `in` on str). */
  predicate ContainsSubstring(s: string, needle: string)
  {
    StartsWith(s, needle) || (s != [] && ContainsSubstring(s[1..], needle))
  }

  /** The ECMAScript WhiteSpace and LineTerminator code points: the set that
      `String.prototype.trim` strips and that the regular-expression class
      `\s` matches. The Zs members are those of current Unicode
      (U+180E is no longer in Zs). */
  predicate IsJsWhitespace(c: char)
  {
    c == '\t' || c == '\n' || c == 0x0B as char || c == 0x0C as char || c == '\r'
    || c == ' ' || c == 0xA0 as char || c == 0x1680 as char
    || (0x2000 as char <= c <= 0x200A as char)
    || c == 0x2028 as char || c == 0x2029 as char
    || c == 0x202F as char || c == 0x205F as char
    || c == 0x3000 as char || c == 0xFEFF as char
  }

  /** Every character of `s` is whitespace (in particular the empty string). */
  predicate IsBlank(s: string)
  {
    forall i :: 0 <= i < |s| ==> IsJsWhitespace(s[i])
  }

  /** The leading-whitespace half of `trim`: a suffix of its input. */
  function TrimStart(s: string): (r: string)
    ensures |r| <= |s| && r == s[|s| - |r|..]
  {
    if s != [] && IsJsWhitespace(s[0]) then TrimStart(s[1..]) else s
  }

  /** The trailing-whitespace half of `trim`: a prefix of its input. */
  function TrimEnd(s: string): (r: string)
    ensures |r| <= |s| && r == s[..|r|]
  {
    if s != [] && IsJsWhitespace(s[|s| - 1]) then TrimEnd(s[..|s| - 1]) else s
  }

  /** `String.prototype.trim`. */
  function Trim(s: string): string
  {
    TrimEnd(TrimStart(s))
  }

  /** `TrimStart` removes whitespace only, and all of it up to the first
      other character. */
  lemma {:induction false} TrimStartSpec(s: string)
    ensures var r := TrimStart(s);
      IsBlank(s[..|s| - |r|]) && (r != [] ==> !IsJsWhitespace(r[0]))
  {
    if s != [] && IsJsWhitespace(s[0]) {
      var r := TrimStart(s[1..]);
      assert TrimStart(s) == r;
      TrimStartSpec(s[1..]);
      var k := |s| - |r|;
      forall j | 0 <= j < k ensures IsJsWhitespace(s[..k][j]) {
        if j > 0 { assert s[..k][j] == s[1..][..k - 1][j - 1]; } else { assert s[..k][j] == s[0]; }
      }
      assert IsBlank(s[..k]);
    } else {
      assert TrimStart(s) == s;
    }
  }

  /** `TrimEnd` removes whitespace only, and all of it after the last
      other character. */
  lemma {:induction false} TrimEndSpec(s: string)
    ensures var r := TrimEnd(s);
      IsBlank(s[|r|..]) && (r != [] ==> !IsJsWhitespace(r[|r| - 1]))
  {
    if s != [] && IsJsWhitespace(s[|s| - 1]) {
      var r := TrimEnd(s[..|s| - 1]);
      assert TrimEnd(s) == r;
      TrimEndSpec(s[..|s| - 1]);
      forall j | 0 <= j < |s| - |r| ensures IsJsWhitespace(s[|r|..][j]) {
        if |r| + j < |s| - 1 {
          assert s[|r|..][j] == s[..|s| - 1][|r|..][j];
        } else {
          assert s[|r|..][j] == s[|s| - 1];
        }
      }
      assert IsBlank(s[|r|..]);
    } else {
      assert TrimEnd(s) == s;
    }
  }

  /** The string `trim` leaves is empty exactly when the input is all whitespace
      (this is the `!x.trim()` test of the form). */
  lemma TrimEmptyIff(s: string)
    ensures Trim(s) == [] <==> IsBlank(s)
  {
    var t := TrimStart(s);
    TrimStartSpec(s);
    TrimEndSpec(t);
    if Trim(s) == [] {
      forall k | 0 <= k < |s| ensures IsJsWhitespace(s[k]) {
        assert s[k] == s[..|s| - |t|][k];
      }
    }
  }

  /** Appending to a string keeps every prefix it already had. */
  lemma StartsWithAppend(s: string, prefix: string, tail: string)
    requires StartsWith(s, prefix)
    ensures StartsWith(s + tail, prefix)
  {
    assert (s + tail)[..|prefix|] == s[..|prefix|];
  }

  /** Prefix tests compose: a prefix of a prefix is a prefix. */
  lemma StartsWithTrans(s: string, p: string, q: string)
    requires StartsWith(s, p) && StartsWith(p, q)
    ensures StartsWith(s, q)
  {
    assert s[..|q|] == p[..|q|];
  }
}
