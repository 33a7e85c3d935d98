/** The e-mail check of the contribution forms, the regular expression
    `^[^\s@]+@[^\s@]+\.[^\s@]+$`. */
module Email {
  import opened JsText

  /** A character the pattern's parts accept: `[^\s@]`. */
  predicate IsPartChar(c: char) {
    !IsJsWhitespace(c) && c != '@'
  }

  /** The regular expression as it reads: a non-empty local part, `@`, a
      non-empty domain part, a dot and a non-empty last part, no part holding
      white space or `@`. The domain part may itself hold dots, so the dot is
      any dot after the character that follows the `@` and before the last
      character. */
  ghost predicate MatchesPattern(s: string) {
    exists at, dot :: 0 < at && at + 1 < dot && dot + 1 < |s| && s[at] == '@' && s[dot] == '.' &&
      forall k :: 0 <= k < |s| && k != at ==> IsPartChar(s[k])
  }

  /** The index of the first `@`, or `|s|` when there is none. */
  function IndexOfAt(s: string): (i: nat)
    ensures i <= |s|
    ensures i < |s| ==> s[i] == '@'
    ensures forall k :: 0 <= k < i ==> s[k] != '@'
  {
    if s == [] then 0
    else if s[0] == '@' then 0
    else 1 + IndexOfAt(s[1..])
  }

  predicate AllPartChars(s: string) {
    forall k :: 0 <= k < |s| ==> IsPartChar(s[k])
  }

  /** `emailRegex.test(s)`, computed by splitting at the first `@`: the test
      succeeds exactly when the string matches the pattern. */
  function IsValidEmail(s: string): (b: bool)
    ensures b <==> MatchesPattern(s)
  {
    var at := IndexOfAt(s);
    var b := 0 < at < |s| && AllPartChars(s[..at]) && AllPartChars(s[at + 1..]) &&
      exists j :: at + 1 < j < |s| - 1 && s[j] == '.';
    MatchesIffValid(s, at, b);
    b
  }

  lemma MatchesIffValid(s: string, at: nat, b: bool)
    requires at == IndexOfAt(s)
    requires b == (0 < at < |s| && AllPartChars(s[..at]) && AllPartChars(s[at + 1..]) &&
      exists j :: at + 1 < j < |s| - 1 && s[j] == '.')
    ensures b <==> MatchesPattern(s)
  {
    if b {
      var j :| at + 1 < j < |s| - 1 && s[j] == '.';
      forall k | 0 <= k < |s| && k != at
        ensures IsPartChar(s[k])
      {
        if k < at {
          assert s[..at][k] == s[k];
        } else {
          assert s[at + 1..][k - at - 1] == s[k];
        }
      }
    }
    if MatchesPattern(s) {
      var a, dot :| 0 < a && a + 1 < dot && dot + 1 < |s| && s[a] == '@' && s[dot] == '.' &&
        forall k :: 0 <= k < |s| && k != a ==> IsPartChar(s[k]);
      assert at == a;
      assert AllPartChars(s[..at]);
      assert AllPartChars(s[at + 1..]);
    }
  }
}
