/** The JavaScript string primitives the modelled code relies on:
    the white-space class shared by the regular-expression escape `\s`
    and by `String.prototype.trim`, and `trim` itself. */
module JsText {

  /** A white-space or line-terminator code unit (ECMAScript WhiteSpace and
      LineTerminator), which is exactly what `\s` matches and `trim` removes. */
  predicate IsJsWhitespace(c: char) {
    c == '\t' || c == '\n' || c == '\U{B}' || c == '\U{C}' || c == '\r' ||
    c == ' ' || c == '\U{A0}' || c == '\U{1680}' ||
    ('\U{2000}' <= c <= '\U{200A}') ||
    c == '\U{2028}' || c == '\U{2029}' || c == '\U{202F}' || c == '\U{205F}' ||
    c == '\U{3000}' || c == '\U{FEFF}'
  }

  predicate AllWhitespace(s: string) {
    forall i :: 0 <= i < |s| ==> IsJsWhitespace(s[i])
  }

  /** `s.trimStart()`: drop leading white space. */
  function TrimStart(s: string): (r: string)
    ensures |r| <= |s| && r == s[|s| - |r|..]
    ensures AllWhitespace(s[..|s| - |r|])
    ensures r == [] || !IsJsWhitespace(r[0])
  {
    if s == [] || !IsJsWhitespace(s[0]) then s
    else
      var r := TrimStart(s[1..]);
      assert s[..|s| - |r|] == [s[0]] + s[1..][..|s| - 1 - |r|];
      r
  }

  /** `s.trimEnd()`: drop trailing white space. */
  function TrimEnd(s: string): (r: string)
    ensures |r| <= |s| && r == s[..|r|]
    ensures AllWhitespace(s[|r|..])
    ensures r == [] || !IsJsWhitespace(r[|r| - 1])
  {
    if s == [] || !IsJsWhitespace(s[|s| - 1]) then s
    else
      var r := TrimEnd(s[..|s| - 1]);
      assert s[..|s| - 1][|r|..] == s[|r|..|s| - 1];
      r
  }

  /** `s.trim()`. */
  function Trim(s: string): (r: string)
    ensures |r| <= |s|
  {
    TrimEnd(TrimStart(s))
  }

  /** What trimming means: the result is the middle of `s`, what was cut off on
      either side is white space, and the result neither starts nor ends with
      white space. */
  lemma TrimIsWhitespaceFree(s: string)
    ensures var r := Trim(s);
      exists a, b :: 0 <= a <= b <= |s| && r == s[a..b] &&
        AllWhitespace(s[..a]) && AllWhitespace(s[b..])
    ensures var r := Trim(s); r == [] || (!IsJsWhitespace(r[0]) && !IsJsWhitespace(r[|r| - 1]))
  {
    var t := TrimStart(s);
    var r := TrimEnd(t);
    var a := |s| - |t|;
    var b := a + |r|;
    assert r == s[a..b];
    assert s[b..] == t[|r|..];
    if r != [] {
      assert r[0] == t[0];
    }
  }

  /** Trimming ignores white space added around a value: two ids that differ
      only by surrounding white space compare equal after `trim`. */
  lemma {:induction false} TrimIgnoresPadding(pre: string, s: string, post: string)
    requires AllWhitespace(pre) && AllWhitespace(post)
    ensures Trim(pre + s + post) == Trim(s)
  {
    assert pre + s + post == pre + (s + post);
    TrimStartPadding(pre, s + post);
    TrimStartAppend(s, post);
    var t := TrimStart(s);
    if TrimStart(s + post) == t + post {
      TrimEndPadding(t, post);
    }
  }

  lemma {:induction false} TrimStartPadding(pre: string, s: string)
    requires AllWhitespace(pre)
    ensures TrimStart(pre + s) == TrimStart(s)
  {
    if pre != [] {
      assert (pre + s)[0] == pre[0] && IsJsWhitespace(pre[0]);
      assert (pre + s)[1..] == pre[1..] + s;
      TrimStartPadding(pre[1..], s);
    } else {
      assert pre + s == s;
    }
  }

  /** Trimming the start of `s + post` when `post` is white space is trimming
      the start of `s` and keeping `post`, unless `s` is all white space. */
  lemma {:induction false} TrimStartAppend(s: string, post: string)
    requires AllWhitespace(post)
    ensures TrimStart(s + post) == TrimStart(s) + post || (TrimStart(s) == [] && TrimStart(s + post) == [])
  {
    if s == [] {
      assert s + post == post;
      AllWhitespaceTrimStart(post);
    } else if !IsJsWhitespace(s[0]) {
    } else {
      assert (s + post)[1..] == s[1..] + post;
      TrimStartAppend(s[1..], post);
    }
  }

  lemma {:induction false} AllWhitespaceTrimStart(s: string)
    requires AllWhitespace(s)
    ensures TrimStart(s) == []
  {
    if s != [] {
      AllWhitespaceTrimStart(s[1..]);
    }
  }

  lemma {:induction false} TrimEndPadding(s: string, post: string)
    requires AllWhitespace(post)
    ensures TrimEnd(s + post) == TrimEnd(s)
  {
    if post != [] {
      var p := post[..|post| - 1];
      assert (s + post)[..|s + post| - 1] == s + p;
      TrimEndPadding(s, p);
    } else {
      assert s + post == s;
    }
  }
}
