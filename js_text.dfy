/**
 * The two ECMAScript string operations the query-parameter reader applies
 * before it looks at a pair: String.prototype.toLowerCase on the key and
 * String.prototype.trim on the value.
 */
module JsText {

  /** A character trim removes: ECMAScript WhiteSpace (tab, vertical tab, form
      feed, space, no-break space, byte order mark and the Unicode space
      separators) or LineTerminator (LF, CR, line and paragraph separator). */
  predicate IsTrimmable(c: char) {
    || c == '\t' || c == '\n' || c == '\U{000B}' || c == '\U{000C}' || c == '\r'
    || c == ' ' || c == '\U{00A0}' || c == '\U{1680}'
    || ('\U{2000}' <= c <= '\U{200A}')
    || c == '\U{2028}' || c == '\U{2029}' || c == '\U{202F}' || c == '\U{205F}'
    || c == '\U{3000}' || c == '\U{FEFF}'
  }

  predicate AllTrimmable(s: string) {
    forall i :: 0 <= i < |s| ==> IsTrimmable(s[i])
  }

  /** A string trim leaves as it is: it neither starts nor ends with a trimmable character. */
  predicate IsTrimmed(s: string) {
    s == [] || (!IsTrimmable(s[0]) && !IsTrimmable(s[|s| - 1]))
  }

  /** Drops the leading trimmable characters: what is left is a suffix of s
      that does not start with one. */
  function TrimStart(s: string): string {
    if s != [] && IsTrimmable(s[0]) then TrimStart(s[1..]) else s
  }

  /** Drops the trailing trimmable characters: what is left is a prefix of s
      that does not end with one. */
  function TrimEnd(s: string): string {
    if s != [] && IsTrimmable(s[|s| - 1]) then TrimEnd(s[..|s| - 1]) else s
  }

  /** String.prototype.trim: whitespace dropped at both ends (TrimSpec). */
  function Trim(s: string): string {
    TrimEnd(TrimStart(s))
  }

  /** TrimStart keeps the longest suffix of s that does not start with a
      trimmable character: what it drops is all whitespace. */
  lemma {:induction false} TrimStartSpec(s: string)
    ensures var r := TrimStart(s);
      && |r| <= |s| && r == s[|s| - |r|..]
      && AllTrimmable(s[..|s| - |r|])
      && (r == [] || !IsTrimmable(r[0]))
  {
    if s != [] && IsTrimmable(s[0]) {
      TrimStartSpec(s[1..]);
      var r := TrimStart(s);
    }
  }

  /** TrimEnd keeps the longest prefix of s that does not end with a
      trimmable character: what it drops is all whitespace. */
  lemma {:induction false} TrimEndSpec(s: string)
    ensures var r := TrimEnd(s);
      && |r| <= |s| && r == s[..|r|]
      && AllTrimmable(s[|r|..])
      && (r == [] || !IsTrimmable(r[|r| - 1]))
  {
    if s != [] && IsTrimmable(s[|s| - 1]) {
      var s' := s[..|s| - 1];
      TrimEndSpec(s');
      var r := TrimEnd(s);
      assert s[|r|..] == s'[|r|..] + [s[|s| - 1]];
    }
  }

  /** The trimmed string neither starts nor ends with whitespace, and is
      what remains of s once whitespace is dropped at both ends: a slice
      s[i..j] with only whitespace before i and after j. */
  lemma TrimSpec(s: string)
    ensures IsTrimmed(Trim(s))
    ensures |Trim(s)| <= |s|
    ensures exists i, j ::
              && 0 <= i <= j <= |s| && Trim(s) == s[i..j]
              && AllTrimmable(s[..i]) && AllTrimmable(s[j..])
  {
    var t := TrimStart(s);
    TrimStartSpec(s);
    TrimEndSpec(t);
    var r := TrimEnd(t);
    var i := |s| - |t|;
    var j := i + |r|;
    assert r == s[i..j];
    assert s[j..] == t[|r|..];
    assert AllTrimmable(s[..i]) && AllTrimmable(s[j..]);
    if r != [] {
      assert r[0] == t[0];
    }
  }

  /** A string with nothing to trim is its own trim. */
  lemma TrimOfTrimmed(s: string)
    requires IsTrimmed(s)
    ensures Trim(s) == s
  {
    assert TrimStart(s) == s;
  }

  /** Trimming twice is trimming once. */
  lemma TrimIdempotent(s: string)
    ensures Trim(Trim(s)) == Trim(s)
  {
    TrimSpec(s);
    TrimOfTrimmed(Trim(s));
  }

  /** Leading trimmable characters do not change the trim. */
  lemma {:induction false} TrimStartSkipsPadding(p: string, s: string)
    requires AllTrimmable(p)
    ensures TrimStart(p + s) == TrimStart(s)
  {
    if p != [] {
      assert (p + s)[1..] == p[1..] + s;
      TrimStartSkipsPadding(p[1..], s);
    } else {
      assert p + s == s;
    }
  }

  /** Trailing trimmable characters do not change the trim. */
  lemma {:induction false} TrimEndSkipsPadding(s: string, q: string)
    requires AllTrimmable(q)
    ensures TrimEnd(s + q) == TrimEnd(s)
  {
    if q != [] {
      var q' := q[..|q| - 1];
      assert (s + q)[..|s + q| - 1] == s + q';
      TrimEndSkipsPadding(s, q');
    } else {
      assert s + q == s;
    }
  }

  /** Whitespace around a value is ignored: trim(p + s + q) == trim(s). */
  lemma TrimIgnoresPadding(p: string, s: string, q: string)
    requires AllTrimmable(p) && AllTrimmable(q)
    ensures Trim(p + s + q) == Trim(s)
  {
    if AllTrimmable(s) {
      BlankTrimsToEmpty(s);
      BlankTrimsToEmpty(p + s + q);
    } else {
      assert p + s + q == p + (s + q);
      TrimStartSkipsPadding(p, s + q);
      TrimStartOfPrefix(s, q);
      TrimEndSkipsPadding(TrimStart(s), q);
    }
  }

  /** A string made only of whitespace trims to the empty string. */
  lemma BlankTrimsToEmpty(s: string)
    requires AllTrimmable(s)
    ensures TrimStart(s) == [] && Trim(s) == []
  {
  }

  /** Trimming the front of s + q only looks at q when s is all whitespace. */
  lemma {:induction false} TrimStartOfPrefix(s: string, q: string)
    requires !AllTrimmable(s)
    ensures TrimStart(s + q) == TrimStart(s) + q
  {
    if IsTrimmable(s[0]) {
      assert (s + q)[1..] == s[1..] + q;
      assert !AllTrimmable(s[1..]) by {
        var i :| 0 <= i < |s| && !IsTrimmable(s[i]);
        assert s[1..][i - 1] == s[i];
      }
      TrimStartOfPrefix(s[1..], q);
    }
  }

  /** Lower-cases one character. Only the ASCII letters A-Z are mapped. */
  function LowerChar(c: char): (r: char)
    ensures !('A' <= r <= 'Z')
    ensures 'A' <= c <= 'Z' ==> r as int == c as int + 32
    ensures !('A' <= c <= 'Z') ==> r == c
  {
    if 'A' <= c <= 'Z' then (c as int + 32) as char else c
  }

  /** String.prototype.toLowerCase, character by character. */
  function ToLower(s: string): (r: string)
    ensures |r| == |s|
  {
    if s == [] then [] else [LowerChar(s[0])] + ToLower(s[1..])
  }

  /** Each character of the lower-cased string is the lower-cased character. */
  lemma {:induction false} ToLowerAt(s: string, i: nat)
    requires i < |s|
    ensures ToLower(s)[i] == LowerChar(s[i])
  {
    if i > 0 {
      ToLowerAt(s[1..], i - 1);
    }
  }

  /** A string without upper-case letters. */
  predicate IsLower(s: string) {
    forall i :: 0 <= i < |s| ==> !('A' <= s[i] <= 'Z')
  }

  /** Lower-casing leaves a lower-case string as it is, so it is idempotent. */
  lemma {:induction false} ToLowerOfLower(s: string)
    requires IsLower(s)
    ensures ToLower(s) == s
  {
    if s != [] {
      ToLowerOfLower(s[1..]);
    }
  }

  lemma ToLowerIdempotent(s: string)
    ensures ToLower(ToLower(s)) == ToLower(s)
  {
    forall i | 0 <= i < |s|
      ensures !('A' <= ToLower(s)[i] <= 'Z')
    {
      ToLowerAt(s, i);
    }
    ToLowerOfLower(ToLower(s));
  }
}
