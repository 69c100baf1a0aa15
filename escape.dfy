/**
 * The search-term escaper of helpers/escapeRegexHelper.js (repeated verbatim in
 * routes/campgrounds.js): every regular-expression metacharacter and every
 * whitespace character of the term is preceded by a backslash, so that the term
 * can be embedded in a RegExp and match only itself.
 */
module Escape {
  import opened Wrappers

  /** The characters of JavaScript's `\s` class: WhiteSpace and LineTerminator. */
  predicate IsWhitespace(c: char) {
    || c == '\t' || c == '\n' || c == '\U{000B}' || c == '\U{000C}' || c == '\r'
    || c == ' ' || c == '\U{00A0}' || c == '\U{1680}'
    || ('\U{2000}' <= c <= '\U{200A}')
    || c == '\U{2028}' || c == '\U{2029}' || c == '\U{202F}' || c == '\U{205F}'
    || c == '\U{3000}' || c == '\U{FEFF}'
  }

  /** Membership in the class `[-[\]{}()*+?.,\\^$|#\s]`. */
  predicate IsSpecial(c: char) {
    || c == '-' || c == '[' || c == ']' || c == '{' || c == '}' || c == '(' || c == ')'
    || c == '*' || c == '+' || c == '?' || c == '.' || c == ',' || c == '\\'
    || c == '^' || c == '$' || c == '|' || c == '#'
    || IsWhitespace(c)
  }

  /** What one input character becomes: `\` followed by it when special, itself otherwise. */
  function EscapeChar(c: char): string
  {
    if IsSpecial(c) then ['\\', c] else [c]
  }

  /**
   * `text.replace(/[-[\]{}()*+?.,\\^$|#\s]/g, "\\$&")`: the output is longer
   * than the input by exactly the number of special characters.
   */
  function EscapeRegex(s: string): (r: string)
    ensures |r| == |s| + CountSpecial(s)
  {
    if s == [] then [] else EscapeChar(s[0]) + EscapeRegex(s[1..])
  }

  /** Number of special characters in `s`. */
  function CountSpecial(s: string): nat
  {
    if s == [] then 0 else (if IsSpecial(s[0]) then 1 else 0) + CountSpecial(s[1..])
  }

  /**
   * The inverse of escaping: reads a pattern made only of escaped special
   * characters and plain non-special characters back into the literal it
   * stands for; any other pattern (a bare metacharacter, a backslash before
   * an ordinary character, a trailing backslash) is not such a literal.
   */
  function Unescape(p: string): Option<string>
  {
    if p == [] then Some([])
    else if p[0] == '\\' then
      if |p| >= 2 && IsSpecial(p[1]) then
        match Unescape(p[2..])
        case Some(rest) => Some([p[1]] + rest)
        case None => None
      else None
    else if IsSpecial(p[0]) then None
    else
      match Unescape(p[1..])
      case Some(rest) => Some([p[0]] + rest)
      case None => None
  }

  /** Escaping works character by character: it distributes over concatenation. */
  lemma {:induction false} EscapeAppend(a: string, b: string)
    ensures EscapeRegex(a + b) == EscapeRegex(a) + EscapeRegex(b)
  {
    if a == [] {
      assert a + b == b;
    } else {
      assert (a + b)[1..] == a[1..] + b;
      EscapeAppend(a[1..], b);
    }
  }

  /**
   * Position by position: the i-th input character, placed after the i
   * characters before it and the backslashes inserted for them, is written as
   * a backslash followed by itself when special, and copied unchanged otherwise.
   */
  lemma EscapeAt(s: string, i: nat)
    requires i < |s|
    ensures var j := i + CountSpecial(s[..i]);
      && j + |EscapeChar(s[i])| <= |EscapeRegex(s)|
      && (IsSpecial(s[i]) ==> EscapeRegex(s)[j] == '\\' && EscapeRegex(s)[j + 1] == s[i])
      && (!IsSpecial(s[i]) ==> EscapeRegex(s)[j] == s[i])
  {
    var pre, post := s[..i], s[i + 1..];
    assert s == pre + ([s[i]] + post);
    EscapeAppend(pre, [s[i]] + post);
    EscapeAppend([s[i]], post);
    assert EscapeRegex([s[i]]) == EscapeChar(s[i]) by {
      assert [s[i]][1..] == [];
    }
  }

  /** Escaping is undone by Unescape: the escaped term stands for exactly the term. */
  lemma {:induction false} UnescapeEscape(s: string)
    ensures Unescape(EscapeRegex(s)) == Some(s)
  {
    if s != [] {
      UnescapeEscape(s[1..]);
      var e := EscapeRegex(s);
      if IsSpecial(s[0]) {
        assert e[2..] == EscapeRegex(s[1..]);
      } else {
        assert e[1..] == EscapeRegex(s[1..]);
      }
      assert [s[0]] + s[1..] == s;
    }
  }

  /** Conversely, every pattern Unescape reads as a literal is the escaping of that literal. */
  lemma {:induction false} EscapeUnescape(p: string, s: string)
    requires Unescape(p) == Some(s)
    ensures EscapeRegex(s) == p
  {
    if p != [] {
      if p[0] == '\\' {
        var rest := Unescape(p[2..]).value;
        EscapeUnescape(p[2..], rest);
        assert s == [p[1]] + rest && s[1..] == rest;
        assert p == ['\\', p[1]] + p[2..];
      } else {
        var rest := Unescape(p[1..]).value;
        EscapeUnescape(p[1..], rest);
        assert s == [p[0]] + rest && s[1..] == rest;
        assert p == [p[0]] + p[1..];
      }
    }
  }

  lemma {:induction false} CountSpecialZero(s: string)
    ensures CountSpecial(s) == 0 <==> forall i | 0 <= i < |s| :: !IsSpecial(s[i])
  {
    if s != [] {
      CountSpecialZero(s[1..]);
      assert forall i | 1 <= i < |s| :: s[i] == s[1..][i - 1];
    }
  }

  /**
   * A term is returned unchanged exactly when it holds no special character
   * (the empty term in particular).
   */
  lemma {:induction false} EscapeUnchangedIff(s: string)
    ensures EscapeRegex(s) == s <==> forall i | 0 <= i < |s| :: !IsSpecial(s[i])
  {
    CountSpecialZero(s);
    if forall i | 0 <= i < |s| :: !IsSpecial(s[i]) {
      EscapeIdentity(s);
    }
  }

  lemma {:induction false} EscapeIdentity(s: string)
    requires forall i | 0 <= i < |s| :: !IsSpecial(s[i])
    ensures EscapeRegex(s) == s
  {
    if s != [] {
      var rest := s[1..];
      assert forall i | 0 <= i < |rest| :: rest[i] == s[i + 1];
      EscapeIdentity(rest);
      assert !IsSpecial(s[0]);
      assert EscapeChar(s[0]) == [s[0]];
      assert s == [s[0]] + rest;
    }
  }

  /** The backslash is itself special: a single `\` becomes `\\`. */
  lemma EscapeBackslash()
    ensures EscapeRegex("\\") == "\\\\"
  {
    assert "\\"[1..] == [];
  }

  /**
   * Escaping is not idempotent: escaping an escaped term again changes it
   * whenever the term holds a special character, since every inserted
   * backslash is escaped in turn.
   */
  lemma EscapeTwiceIff(s: string)
    ensures EscapeRegex(EscapeRegex(s)) == EscapeRegex(s) <==> forall i | 0 <= i < |s| :: !IsSpecial(s[i])
  {
    var e := EscapeRegex(s);
    EscapeUnchangedIff(e);
    EscapeUnchangedIff(s);
    if !(forall i | 0 <= i < |s| :: !IsSpecial(s[i])) {
      var i :| 0 <= i < |s| && IsSpecial(s[i]);
      EscapeAt(s, i);
      var j := i + CountSpecial(s[..i]);
      assert IsSpecial(e[j]);
    }
  }
}
