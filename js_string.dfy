/**
 * The two ECMAScript string builtins the backend relies on: the `length`
 * of a string, counted in UTF-16 code units, and `String.prototype.trim`.
 * A Dafny `char` is a Unicode scalar value, so a character outside the Basic
 * Multilingual Plane is one `char` here and two code units in JavaScript.
 */
module JsString {

  /** `s.length` in JavaScript: characters above U+FFFF take a surrogate pair. */
  function JsLength(s: string): (n: nat)
    ensures |s| <= n <= 2 * |s|
  {
    if s == [] then 0 else (if s[0] as int > 0xFFFF then 2 else 1) + JsLength(s[1..])
  }

  /** For ASCII text the JavaScript length is the number of characters. */
  lemma {:induction false} AsciiJsLength(s: string)
    requires forall i :: 0 <= i < |s| ==> s[i] as int < 128
    ensures JsLength(s) == |s|
  {
    if s != [] {
      AsciiJsLength(s[1..]);
    }
  }

  /**
   * The characters `trim` removes: WhiteSpace (section 12.2 of ECMA-262:
   * TAB, VT, FF, ZWNBSP and the Unicode category Zs) and LineTerminator
   * (section 12.3: LF, CR, LS, PS).
   */
  predicate IsWhiteSpace(c: char)
  {
    c == '\t' || c == '\n' || c == '\U{000B}' || c == '\U{000C}' || c == '\r' ||
    c == ' ' || c == '\U{00A0}' || c == '\U{1680}' ||
    ('\U{2000}' <= c <= '\U{200A}') ||
    c == '\U{2028}' || c == '\U{2029}' || c == '\U{202F}' || c == '\U{205F}' ||
    c == '\U{3000}' || c == '\U{FEFF}'
  }

  predicate AllWhiteSpace(s: string)
  {
    forall i :: 0 <= i < |s| ==> IsWhiteSpace(s[i])
  }

  function TrimStart(s: string): string
  {
    if s != [] && IsWhiteSpace(s[0]) then TrimStart(s[1..]) else s
  }

  function TrimEnd(s: string): string
  {
    if s != [] && IsWhiteSpace(s[|s| - 1]) then TrimEnd(s[..|s| - 1]) else s
  }

  /** `String.prototype.trim` (section 22.1.3.32 of ECMA-262). */
  function Trim(s: string): string
  {
    TrimEnd(TrimStart(s))
  }

  /** `TrimStart` removes the leading white space, and only that. */
  lemma {:induction false} TrimStartSpec(s: string)
    ensures var r := TrimStart(s);
      |r| <= |s| && r == s[|s| - |r|..] && AllWhiteSpace(s[..|s| - |r|]) &&
      (r != [] ==> !IsWhiteSpace(r[0]))
  {
    if s != [] && IsWhiteSpace(s[0]) {
      TrimStartSpec(s[1..]);
      var r := TrimStart(s);
      assert s[1..][|s| - 1 - |r|..] == s[|s| - |r|..];
      assert forall k :: 1 <= k < |s| - |r| ==> s[k] == s[1..][..|s| - 1 - |r|][k - 1];
    }
  }

  /** `TrimEnd` removes the trailing white space, and only that. */
  lemma {:induction false} TrimEndSpec(s: string)
    ensures var r := TrimEnd(s);
      |r| <= |s| && r == s[..|r|] && AllWhiteSpace(s[|r|..]) &&
      (r != [] ==> !IsWhiteSpace(r[|r| - 1]))
  {
    if s != [] && IsWhiteSpace(s[|s| - 1]) {
      TrimEndSpec(s[..|s| - 1]);
      var r := TrimEnd(s);
      assert s[..|s| - 1][..|r|] == s[..|r|];
      assert forall k :: |r| <= k < |s| - 1 ==> s[k] == s[..|s| - 1][|r|..][k - |r|];
    }
  }

  /**
   * The result of `trim` is the slice `s[i..j]` that neither starts nor ends
   * with white space, and what is cut off on either side is all white space.
   */
  lemma TrimSpec(s: string)
    ensures var r := Trim(s);
      exists i :: 0 <= i <= |s| - |r| && r == s[i..i + |r|] &&
        AllWhiteSpace(s[..i]) && AllWhiteSpace(s[i + |r|..])
    ensures var r := Trim(s);
      r != [] ==> !IsWhiteSpace(r[0]) && !IsWhiteSpace(r[|r| - 1])
  {
    var m := TrimStart(s);
    TrimStartSpec(s);
    TrimEndSpec(m);
    var r := Trim(s);
    var i := |s| - |m|;
    assert r == s[i..i + |r|];
    assert s[i + |r|..] == m[|r|..];
  }

  lemma {:induction false} TrimStartOfPadded(w: string, s: string)
    requires AllWhiteSpace(w)
    ensures TrimStart(w + s) == TrimStart(s)
  {
    if w == [] {
      assert w + s == s;
    } else {
      assert (w + s)[0] == w[0];
      assert (w + s)[1..] == w[1..] + s;
      TrimStartOfPadded(w[1..], s);
    }
  }

  lemma {:induction false} TrimEndOfPadded(s: string, w: string)
    requires AllWhiteSpace(w)
    ensures TrimEnd(s + w) == TrimEnd(s)
  {
    if w == [] {
      assert s + w == s;
    } else {
      assert (s + w)[|s + w| - 1] == w[|w| - 1];
      assert (s + w)[..|s + w| - 1] == s + w[..|w| - 1];
      TrimEndOfPadded(s, w[..|w| - 1]);
    }
  }

  lemma {:induction false} TrimStartOfEndPadded(s: string, w: string)
    requires AllWhiteSpace(w)
    requires TrimStart(s) != []
    ensures TrimStart(s + w) == TrimStart(s) + w
  {
    if s != [] && IsWhiteSpace(s[0]) {
      assert (s + w)[1..] == s[1..] + w;
      TrimStartOfEndPadded(s[1..], w);
    }
  }

  /** White space added around a string does not change what `trim` gives. */
  lemma TrimIgnoresPadding(w1: string, s: string, w2: string)
    requires AllWhiteSpace(w1) && AllWhiteSpace(w2)
    ensures Trim(w1 + s + w2) == Trim(s)
  {
    TrimStartOfPadded(w1, s + w2);
    assert w1 + s + w2 == w1 + (s + w2);
    TrimStartSpec(s);
    if TrimStart(s) == [] {
      assert AllWhiteSpace(s);
      TrimStartOfPadded(s, w2);
      assert w2 == w2 + [];
      TrimStartOfPadded(w2, []);
    } else {
      TrimStartOfEndPadded(s, w2);
      TrimEndOfPadded(TrimStart(s), w2);
    }
  }

  /** Trimming twice is trimming once. */
  lemma TrimIdempotent(s: string)
    ensures Trim(Trim(s)) == Trim(s)
  {
    var t := Trim(s);
    TrimSpec(s);
    if t != [] {
      assert TrimStart(t) == t;
      assert TrimEnd(t) == t;
    }
  }
}
