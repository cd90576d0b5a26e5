/** String trimming as JavaScript's String.prototype.trim performs it: the
    handlers strip WhiteSpace and LineTerminator characters from both ends of
    the name, category and description they store. */
module Text {

  /** The characters trim strips: tab, vertical tab, form feed, space,
      no-break space, byte order mark, the other Unicode space separators,
      and the four line terminators. */
  const WhitespaceChars: set<char> := {
    '\t', '\U{000B}', '\U{000C}', ' ', '\U{00A0}', '\U{FEFF}',
    '\U{1680}', '\U{2000}', '\U{2001}', '\U{2002}', '\U{2003}', '\U{2004}', '\U{2005}',
    '\U{2006}', '\U{2007}', '\U{2008}', '\U{2009}', '\U{200A}', '\U{202F}', '\U{205F}', '\U{3000}',
    '\n', '\r', '\U{2028}', '\U{2029}'
  }

  predicate IsWhitespace(c: char) {
    c in WhitespaceChars
  }

  predicate AllWhitespace(s: string) {
    forall k :: 0 <= k < |s| ==> IsWhitespace(s[k])
  }

  /** Neither end of s is a whitespace character. */
  predicate Trimmed(s: string) {
    s == [] || (!IsWhitespace(s[0]) && !IsWhitespace(s[|s| - 1]))
  }

  /** r is the part of s that starts at position i, and everything of s
      before and after it is whitespace. */
  predicate CutAt(s: string, i: nat, r: string) {
    && i + |r| <= |s|
    && r == s[i..i + |r|]
    && (forall k :: 0 <= k < i ==> IsWhitespace(s[k]))
    && (forall k :: i + |r| <= k < |s| ==> IsWhitespace(s[k]))
  }

  /** How many whitespace characters s starts with. */
  function LeadingSpaces(s: string): (n: nat)
    ensures n <= |s|
    ensures forall k :: 0 <= k < n ==> IsWhitespace(s[k])
    ensures n < |s| ==> !IsWhitespace(s[n])
  {
    if s == [] || !IsWhitespace(s[0]) then 0 else 1 + LeadingSpaces(s[1..])
  }

  /** How many whitespace characters s ends with. */
  function TrailingSpaces(s: string): (n: nat)
    ensures n <= |s|
    ensures forall k :: |s| - n <= k < |s| ==> IsWhitespace(s[k])
    ensures n < |s| ==> !IsWhitespace(s[|s| - 1 - n])
  {
    if s == [] || !IsWhitespace(s[|s| - 1]) then 0 else 1 + TrailingSpaces(s[..|s| - 1])
  }

  /** String.prototype.trim: s with its leading, then its trailing,
      whitespace removed. What is left is a whitespace-only cut of s that
      neither starts nor ends with whitespace. */
  function Trim(s: string): (r: string)
    ensures CutAt(s, LeadingSpaces(s), r) && Trimmed(r)
  {
    var i := LeadingSpaces(s);
    var t := s[i..];
    var r := t[..|t| - TrailingSpaces(t)];
    assert forall k :: i + |r| <= k < |s| ==> s[k] == t[k - i];
    r
  }

  /** Trim is determined by its contract: any whitespace-only cut of s that
      neither starts nor ends with whitespace is Trim(s). */
  lemma TrimUnique(s: string, i: nat, r: string)
    requires CutAt(s, i, r) && Trimmed(r)
    ensures r == Trim(s)
  {
    var n := LeadingSpaces(s);
    if r == [] {
      assert AllWhitespace(s);
      assert n == |s|;
    } else {
      assert s[i] == r[0];
      assert n == i;
      var t := s[i..];
      assert forall k :: |r| <= k < |t| ==> t[k] == s[i + k];
      assert t[|r| - 1] == r[|r| - 1];
      assert TrailingSpaces(t) == |t| - |r|;
    }
  }

  /** Trimming twice is trimming once, and Trim leaves a string alone
      exactly when it is already trimmed. */
  lemma TrimFixesTrimmed(s: string)
    ensures Trim(s) == s <==> Trimmed(s)
    ensures Trim(Trim(s)) == Trim(s)
  {
    if Trimmed(s) {
      assert CutAt(s, 0, s);
      TrimUnique(s, 0, s);
    }
    var r := Trim(s);
    assert CutAt(r, 0, r);
    TrimUnique(r, 0, r);
  }

  /** Trim leaves nothing exactly when the string is whitespace only. */
  lemma TrimEmptyIffBlank(s: string)
    ensures Trim(s) == [] <==> AllWhitespace(s)
  {
    if AllWhitespace(s) {
      assert CutAt(s, 0, []);
      TrimUnique(s, 0, []);
    }
    if Trim(s) == [] {
      assert forall k :: 0 <= k < |s| ==> IsWhitespace(s[k]);
    }
  }
}
