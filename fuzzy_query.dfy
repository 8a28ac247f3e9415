/**
 * BaseSecurityManager.makeFuzzyQueryString: the normaliser that turns a
 * search term typed by a user into a SQL LIKE pattern.
 *
 *  - A term of more than one character wrapped in double quotes is an exact
 *    match: the quotes are stripped and nothing else is rewritten.
 *  - Any other term is a prefix match: '%' is appended and every '*' the
 *    user typed becomes the LIKE wildcard '%'.
 *  - In both cases every '_' (the LIKE one-character wildcard) is escaped
 *    as "\_" so that it matches a literal underscore.
 */
module FuzzyQuery {

  /** The exact-match form: longer than one character, starts and ends with '"'. */
  predicate IsQuoted(s: string)
  {
    |s| > 1 && s[0] == '"' && s[|s| - 1] == '"'
  }

  /** String.replace('*', '%'). */
  function StarsToPercent(s: string): (r: string)
    ensures |r| == |s|
    ensures forall i :: 0 <= i < |s| ==> r[i] == (if s[i] == '*' then '%' else s[i])
  {
    if s == [] then [] else [if s[0] == '*' then '%' else s[0]] + StarsToPercent(s[1..])
  }

  /** String.replace("_", "\\_"). */
  function EscapeUnderscores(s: string): string
  {
    if s == [] then []
    else (if s[0] == '_' then ['\\', '_'] else [s[0]]) + EscapeUnderscores(s[1..])
  }

  /** Reads an escaped pattern back: "\_" stands for '_', any other character for itself. */
  function Unescape(s: string): string
  {
    if s == [] then []
    else if |s| >= 2 && s[0] == '\\' && s[1] == '_' then ['_'] + Unescape(s[2..])
    else [s[0]] + Unescape(s[1..])
  }

  /** Every underscore of the pattern is preceded by a backslash. */
  predicate UnderscoresEscaped(s: string)
  {
    forall i :: 0 <= i < |s| && s[i] == '_' ==> i > 0 && s[i - 1] == '\\'
  }

  function MakeFuzzyQueryString(s: string): string
  {
    var t := if IsQuoted(s) then s[1..|s| - 1] else StarsToPercent(s + "%");
    EscapeUnderscores(t)
  }

  // ---------------------------------------------------------------------
  // Facts about escaping

  lemma {:induction false} EscapedDoesNotStartWithUnderscore(s: string)
    ensures EscapeUnderscores(s) == [] || EscapeUnderscores(s)[0] != '_'
  {
  }

  /** Escaping loses nothing: unescaping gives the original text back. */
  lemma {:induction false} UnescapeEscape(s: string)
    ensures Unescape(EscapeUnderscores(s)) == s
  {
    if s != [] {
      var rest := EscapeUnderscores(s[1..]);
      UnescapeEscape(s[1..]);
      if s[0] == '_' {
        assert EscapeUnderscores(s) == ['\\', '_'] + rest;
        assert (['\\', '_'] + rest)[2..] == rest;
      } else {
        assert EscapeUnderscores(s) == [s[0]] + rest;
        EscapedDoesNotStartWithUnderscore(s[1..]);
        assert ([s[0]] + rest)[1..] == rest;
      }
    }
  }

  /** After escaping, every underscore is preceded by a backslash. An
      underscore the input had already escaped (a backslash, then the
      underscore) is escaped once more and becomes two backslashes and the
      underscore, as the source's replace does. This property only looks at
      the character before each underscore, so it counts that underscore as
      escaped, although in a LIKE pattern the first backslash escapes the
      second one instead. */
  lemma {:induction false} EscapedHasNoBareUnderscore(s: string)
    ensures UnderscoresEscaped(EscapeUnderscores(s))
  {
    if s != [] {
      EscapedHasNoBareUnderscore(s[1..]);
      var rest := EscapeUnderscores(s[1..]);
      var head: string := if s[0] == '_' then ['\\', '_'] else [s[0]];
      assert EscapeUnderscores(s) == head + rest;
      forall i | 0 <= i < |head + rest| && (head + rest)[i] == '_'
        ensures i > 0 && (head + rest)[i - 1] == '\\'
      {
        if i >= |head| {
          assert (head + rest)[i] == rest[i - |head|];
          if i - |head| > 0 {
            assert (head + rest)[i - 1] == rest[i - |head| - 1];
          }
        }
      }
    }
  }

  /** Escaping keeps every character other than the backslash it inserts. */
  lemma {:induction false} EscapeKeepsCharacters(s: string, c: char)
    requires c != '\\'
    ensures c in EscapeUnderscores(s) <==> c in s
  {
    if s != [] {
      EscapeKeepsCharacters(s[1..], c);
      var head: string := if s[0] == '_' then ['\\', '_'] else [s[0]];
      assert EscapeUnderscores(s) == head + EscapeUnderscores(s[1..]);
      assert s == [s[0]] + s[1..];
    }
  }

  /** The last character survives escaping when it is not an underscore. */
  lemma {:induction false} EscapeKeepsLast(s: string)
    requires s != [] && s[|s| - 1] != '_'
    ensures var e := EscapeUnderscores(s); e != [] && e[|e| - 1] == s[|s| - 1]
  {
    var head: string := if s[0] == '_' then ['\\', '_'] else [s[0]];
    assert EscapeUnderscores(s) == head + EscapeUnderscores(s[1..]);
    if |s| > 1 {
      EscapeKeepsLast(s[1..]);
    }
  }

  // ---------------------------------------------------------------------
  // The properties of makeFuzzyQueryString

  /** Quoted input: the quotes are stripped; no '%' is appended and '*' is
      kept, so the pattern reads back as exactly the text inside the quotes. */
  lemma FuzzyQuotedStripsQuotes(s: string)
    requires IsQuoted(s)
    ensures Unescape(MakeFuzzyQueryString(s)) == s[1..|s| - 1]
  {
    UnescapeEscape(s[1..|s| - 1]);
  }

  /** Unquoted input: the pattern reads back as the input with every '*'
      turned into '%' and a '%' appended; it ends with '%' and holds no '*'. */
  lemma FuzzyUnquotedAppendsWildcard(s: string)
    requires !IsQuoted(s)
    ensures Unescape(MakeFuzzyQueryString(s)) == StarsToPercent(s) + "%"
    ensures var r := MakeFuzzyQueryString(s); r != [] && r[|r| - 1] == '%' && '*' !in r
  {
    var t := StarsToPercent(s + "%");
    StarsToPercentAppend(s);
    assert MakeFuzzyQueryString(s) == EscapeUnderscores(t);
    UnescapeEscape(t);
    EscapeKeepsLast(t);
    NoStarsLeft(s + "%");
    EscapeKeepsCharacters(t, '*');
  }

  lemma StarsToPercentAppend(s: string)
    ensures StarsToPercent(s + "%") == StarsToPercent(s) + "%"
  {
  }

  lemma NoStarsLeft(s: string)
    ensures '*' !in StarsToPercent(s)
  {
  }

  /** Both branches: the output holds no unescaped underscore, and the
      underscores of the chosen text are all kept (as "\_"). */
  lemma FuzzyEscapesUnderscores(s: string)
    ensures UnderscoresEscaped(MakeFuzzyQueryString(s))
    ensures ('_' in MakeFuzzyQueryString(s)) <==>
            ('_' in (if IsQuoted(s) then s[1..|s| - 1] else s))
  {
    var t := if IsQuoted(s) then s[1..|s| - 1] else StarsToPercent(s + "%");
    EscapedHasNoBareUnderscore(t);
    EscapeKeepsCharacters(t, '_');
    if !IsQuoted(s) {
      assert t == StarsToPercent(s) + "%";
      assert '_' in t <==> '_' in s by {
        if '_' in s {
          var i :| 0 <= i < |s| && s[i] == '_';
          assert t[i] == '_';
        }
        if '_' in t {
          var i :| 0 <= i < |t| && t[i] == '_';
          assert i < |s|;
        }
      }
    }
  }
}
