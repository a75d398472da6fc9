/**
 * The Kotlin string operations the core relies on: `isBlank`, `trim` and
 * `equals(other, ignoreCase = true)`, over strings as sequences of characters.
 */
module Text {

  /**
   * Kotlin's `Char.isWhitespace()` on the JVM: Java's `isWhitespace` or
   * `isSpaceChar`, i.e. the controls TAB..CR and FS..US plus the Unicode
   * space, line and paragraph separators.
   */
  predicate IsWhitespace(c: char) {
    || '\U{9}' <= c <= '\U{D}'
    || '\U{1C}' <= c <= '\U{20}'
    || c == '\U{A0}' || c == '\U{1680}'
    || '\U{2000}' <= c <= '\U{200A}'
    || c == '\U{2028}' || c == '\U{2029}' || c == '\U{202F}' || c == '\U{205F}'
    || c == '\U{3000}'
  }

  /** Kotlin's `isBlank()`: empty or made only of whitespace. */
  predicate IsBlank(s: string) {
    forall i :: 0 <= i < |s| ==> IsWhitespace(s[i])
  }

  /** Drops the leading whitespace: what remains is a suffix of `s` that does not start with whitespace. */
  function TrimStart(s: string): (r: string)
    ensures |r| <= |s| && r == s[|s| - |r|..]
    ensures IsBlank(s[..|s| - |r|])
    ensures r == [] || !IsWhitespace(r[0])
  {
    if s != [] && IsWhitespace(s[0]) then
      var r := TrimStart(s[1..]);
      assert forall i :: 1 <= i < |s| - |r| ==> s[i] == s[1..][..|s| - 1 - |r|][i - 1];
      r
    else s
  }

  /** Drops the trailing whitespace: what remains is a prefix of `s` that does not end with whitespace. */
  function TrimEnd(s: string): (r: string)
    ensures |r| <= |s| && r == s[..|r|]
    ensures IsBlank(s[|r|..])
    ensures r == [] || !IsWhitespace(r[|r| - 1])
  {
    if s != [] && IsWhitespace(s[|s| - 1]) then
      var r := TrimEnd(s[..|s| - 1]);
      assert s[|r|..] == s[..|s| - 1][|r|..] + [s[|s| - 1]];
      r
    else s
  }

  /**
   * Kotlin's `trim()`: the slice of `s` between its leading whitespace (the part
   * `TrimStart` drops) and its trailing whitespace; nothing else is removed.
   */
  function Trim(s: string): (r: string)
    ensures r == [] || (!IsWhitespace(r[0]) && !IsWhitespace(r[|r| - 1]))
    ensures r == [] <==> IsBlank(s)
    ensures BlankBetween(s, |s| - |TrimStart(s)|, r)
  {
    TrimmedSlice(s, TrimStart(s), TrimEnd(TrimStart(s)));
    TrimEnd(TrimStart(s))
  }

  /** `r` is the slice of `s` from `i` on, with only whitespace before and after it. */
  predicate BlankBetween(s: string, i: int, r: string) {
    && 0 <= i <= |s| - |r|
    && r == s[i..i + |r|] && IsBlank(s[..i]) && IsBlank(s[i + |r|..])
  }

  /**
   * A prefix `r` of a suffix `t` of `s`, with only whitespace cut at either end
   * and none left at the cut ends, is what `trim()` promises.
   */
  lemma TrimmedSlice(s: string, t: string, r: string)
    requires |t| <= |s| && t == s[|s| - |t|..] && IsBlank(s[..|s| - |t|])
    requires t == [] || !IsWhitespace(t[0])
    requires |r| <= |t| && r == t[..|r|] && IsBlank(t[|r|..])
    requires r == [] || !IsWhitespace(r[|r| - 1])
    ensures r == [] || (!IsWhitespace(r[0]) && !IsWhitespace(r[|r| - 1]))
    ensures r == [] <==> IsBlank(s)
    ensures BlankBetween(s, |s| - |t|, r)
  {
    var i := |s| - |t|;
    SliceOfSuffix(s, i, |r|);
    if r == [] {
      BlankConcat(s[..i], s[i..]);
      assert s[..i] + s[i..] == s;
    } else {
      assert r[0] == t[0] == s[i];
    }
  }

  /** A prefix of the suffix `s[i..]` is a slice of `s`, and what follows it is the rest of `s`. */
  lemma SliceOfSuffix(s: string, i: int, n: int)
    requires 0 <= i <= |s| && 0 <= n <= |s| - i
    ensures s[i..][..n] == s[i..i + n] && s[i..][n..] == s[i + n..]
  {
  }

  lemma BlankConcat(a: string, b: string)
    requires IsBlank(a) && IsBlank(b)
    ensures IsBlank(a + b)
  {
    forall k | 0 <= k < |a + b| ensures IsWhitespace((a + b)[k]) {
      if k < |a| { assert (a + b)[k] == a[k]; } else { assert (a + b)[k] == b[k - |a|]; }
    }
  }

  lemma {:induction false} TrimStartOfBlankPrefix(w: string, s: string)
    requires IsBlank(w)
    ensures TrimStart(w + s) == TrimStart(s)
  {
    if w != [] {
      assert (w + s)[1..] == w[1..] + s;
      TrimStartOfBlankPrefix(w[1..], s);
    } else {
      assert w + s == s;
    }
  }

  lemma {:induction false} TrimEndOfBlankSuffix(s: string, w: string)
    requires IsBlank(w)
    ensures TrimEnd(s + w) == TrimEnd(s)
  {
    if w != [] {
      assert (s + w)[..|s + w| - 1] == s + w[..|w| - 1];
      TrimEndOfBlankSuffix(s, w[..|w| - 1]);
    } else {
      assert s + w == s;
    }
  }

  /** Appending whitespace after `s` is kept by `TrimStart` unless `s` itself is blank. */
  lemma {:induction false} TrimStartAppend(s: string, w: string)
    requires IsBlank(w)
    ensures TrimStart(s + w) == if IsBlank(s) then [] else TrimStart(s) + w
  {
    if s == [] {
      assert s + w == w;
      assert w == w + [];
      TrimStartOfBlankPrefix(w, []);
    } else {
      assert (s + w)[0] == s[0];
      if IsWhitespace(s[0]) {
        assert (s + w)[1..] == s[1..] + w;
        assert TrimStart(s + w) == TrimStart(s[1..] + w);
        assert TrimStart(s) == TrimStart(s[1..]);
        TrimStartAppend(s[1..], w);
        BlankAfterBlank(s);
      } else {
        assert TrimStart(s + w) == s + w && TrimStart(s) == s;
        assert !IsBlank(s);
      }
    }
  }

  /** A string that starts with whitespace is blank exactly when the rest of it is. */
  lemma BlankAfterBlank(s: string)
    requires s != [] && IsWhitespace(s[0])
    ensures IsBlank(s) <==> IsBlank(s[1..])
  {
    if IsBlank(s[1..]) {
      forall i | 0 <= i < |s| ensures IsWhitespace(s[i]) {
        if i > 0 { assert s[i] == s[1..][i - 1]; }
      }
    }
  }

  /** Whitespace around a string does not change what `trim()` returns. */
  lemma TrimIgnoresPadding(w1: string, s: string, w2: string)
    requires IsBlank(w1) && IsBlank(w2)
    ensures Trim(w1 + s + w2) == Trim(s)
  {
    assert w1 + s + w2 == w1 + (s + w2);
    TrimStartOfBlankPrefix(w1, s + w2);
    TrimStartAppend(s, w2);
    if !IsBlank(s) {
      TrimEndOfBlankSuffix(TrimStart(s), w2);
    }
  }

  /** Trimming twice is trimming once. */
  lemma TrimIdempotent(s: string)
    ensures Trim(Trim(s)) == Trim(s)
  {
    var r := Trim(s);
    if r != [] {
      assert TrimStart(r) == r;
      assert TrimEnd(r) == r;
    }
  }

  /** ASCII case folding; other characters are compared as they are. */
  function FoldCase(c: char): char {
    if 'A' <= c <= 'Z' then (c as int + 32) as char else c
  }

  /** Kotlin's `a.equals(b, ignoreCase = true)`, restricted to ASCII case mappings. */
  predicate EqualsIgnoreCase(a: string, b: string) {
    |a| == |b| && forall i :: 0 <= i < |a| ==> FoldCase(a[i]) == FoldCase(b[i])
  }
}
