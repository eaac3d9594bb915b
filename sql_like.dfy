/**
 * SQL `LIKE`, as SQLAlchemy's `column.contains(s)` compiles it:
 * `column LIKE '%' || s || '%'`, with `s` not escaped, so a `%` or `_` typed into
 * the search box acts as a wildcard, and, where the engine has a default escape
 * character, a `\` typed into it escapes the character after it.
 */
module SqlLike {
  import opened Text

  /** One text character against one literal pattern character. */
  predicate SameChar(a: char, b: char, ignoreCase: bool)
  {
    if ignoreCase then LowerChar(a) == LowerChar(b) else a == b
  }

  /**
   * `text LIKE pattern` with no ESCAPE clause: `%` matches any run of characters,
   * `_` exactly one, any other character itself (up to ASCII case when `ignoreCase`).
   * With `escapes` (PostgreSQL's default escape character `\`), `\` followed by a
   * character matches that character literally; a pattern ending in a lone `\` is an
   * error there and matches nothing here (`ContainsLike` never builds one).
   */
  predicate Like(text: string, pattern: string, ignoreCase: bool, escapes: bool)
    decreases |text| + |pattern|
  {
    if pattern == [] then text == []
    else if escapes && pattern[0] == '\\' then
      && |pattern| >= 2
      && text != []
      && SameChar(text[0], pattern[1], ignoreCase)
      && Like(text[1..], pattern[2..], ignoreCase, escapes)
    else if pattern[0] == '%' then
      Like(text, pattern[1..], ignoreCase, escapes) || (text != [] && Like(text[1..], pattern, ignoreCase, escapes))
    else
      && text != []
      && (pattern[0] == '_' || SameChar(text[0], pattern[0], ignoreCase))
      && Like(text[1..], pattern[1..], ignoreCase, escapes)
  }

  /** `column.contains(search)`. */
  predicate ContainsLike(text: string, search: string, ignoreCase: bool, escapes: bool)
  {
    Like(text, "%" + search + "%", ignoreCase, escapes)
  }

  /** A search string with no character LIKE treats specially. */
  predicate IsLiteral(s: string, escapes: bool)
  {
    forall i :: 0 <= i < |s| ==> s[i] != '%' && s[i] != '_' && (escapes ==> s[i] != '\\')
  }

  /** `search` matches the characters of `text` from index i on. */
  predicate MatchesAt(text: string, search: string, i: nat, ignoreCase: bool)
  {
    i + |search| <= |text| && forall k :: 0 <= k < |search| ==> SameChar(text[i + k], search[k], ignoreCase)
  }

  /** `%` alone matches every text. */
  lemma {:induction false} PercentMatchesAll(text: string, ignoreCase: bool, escapes: bool)
    ensures Like(text, "%", ignoreCase, escapes)
    decreases |text|
  {
    assert "%"[1..] == [];
    if text != [] {
      PercentMatchesAll(text[1..], ignoreCase, escapes);
    }
  }

  /** A literal followed by `%` matches exactly the texts that start with it. */
  lemma {:induction false} LiteralThenPercent(text: string, w: string, ignoreCase: bool, escapes: bool)
    requires IsLiteral(w, escapes)
    ensures Like(text, w + "%", ignoreCase, escapes) <==> MatchesAt(text, w, 0, ignoreCase)
    decreases |w|
  {
    if w == [] {
      assert w + "%" == "%";
      PercentMatchesAll(text, ignoreCase, escapes);
    } else {
      var p := w + "%";
      assert p[0] == w[0] && p[1..] == w[1..] + "%";
      assert IsLiteral(w[1..], escapes) by {
        forall i | 0 <= i < |w[1..]| ensures w[1..][i] != '%' && w[1..][i] != '_' && (escapes ==> w[1..][i] != '\\') {
          assert w[1..][i] == w[i + 1];
        }
      }
      if text != [] {
        LiteralThenPercent(text[1..], w[1..], ignoreCase, escapes);
        if MatchesAt(text, w, 0, ignoreCase) {
          forall k | 0 <= k < |w[1..]| ensures SameChar(text[1..][k], w[1..][k], ignoreCase) {
            assert SameChar(text[k + 1], w[k + 1], ignoreCase);
          }
        }
        if SameChar(text[0], w[0], ignoreCase) && MatchesAt(text[1..], w[1..], 0, ignoreCase) {
          forall k | 0 <= k < |w| ensures SameChar(text[k], w[k], ignoreCase) {
            if k > 0 {
              assert SameChar(text[1..][k - 1], w[1..][k - 1], ignoreCase);
            }
          }
        }
      }
    }
  }

  /** A leading `%` matches exactly when the rest matches some suffix of the text. */
  lemma {:induction false} LeadingPercent(text: string, rest: string, ignoreCase: bool, escapes: bool)
    ensures Like(text, "%" + rest, ignoreCase, escapes) <==>
              exists i :: 0 <= i <= |text| && Like(text[i..], rest, ignoreCase, escapes)
    decreases |text|
  {
    var p := "%" + rest;
    assert p[0] == '%' && p[1..] == rest;
    assert text[0..] == text;
    if text != [] {
      LeadingPercent(text[1..], rest, ignoreCase, escapes);
      if exists i :: 0 <= i <= |text[1..]| && Like(text[1..][i..], rest, ignoreCase, escapes) {
        var i :| 0 <= i <= |text[1..]| && Like(text[1..][i..], rest, ignoreCase, escapes);
        assert text[1..][i..] == text[i + 1..];
      }
      if exists i :: 1 <= i <= |text| && Like(text[i..], rest, ignoreCase, escapes) {
        var i :| 1 <= i <= |text| && Like(text[i..], rest, ignoreCase, escapes);
        assert text[1..][i - 1..] == text[i..];
      }
    }
  }

  /** For a search with no special character, `contains` finds it at some position of the text. */
  lemma ContainsLiteral(text: string, w: string, ignoreCase: bool, escapes: bool)
    requires IsLiteral(w, escapes)
    ensures ContainsLike(text, w, ignoreCase, escapes) <==>
              exists i :: 0 <= i <= |text| && MatchesAt(text, w, i, ignoreCase)
  {
    assert "%" + w + "%" == "%" + (w + "%");
    LeadingPercent(text, w + "%", ignoreCase, escapes);
    forall i | 0 <= i <= |text|
      ensures Like(text[i..], w + "%", ignoreCase, escapes) <==> MatchesAt(text, w, i, ignoreCase)
    {
      LiteralThenPercent(text[i..], w, ignoreCase, escapes);
      if MatchesAt(text[i..], w, 0, ignoreCase) {
        forall k | 0 <= k < |w| ensures SameChar(text[i + k], w[k], ignoreCase) {
          assert text[i..][k] == text[i + k];
        }
      }
      if MatchesAt(text, w, i, ignoreCase) {
        forall k | 0 <= k < |w| ensures SameChar(text[i..][k], w[k], ignoreCase) {
          assert text[i..][k] == text[i + k];
        }
      }
    }
  }

  /** Where LIKE compares exactly, a literal search is a substring test. */
  lemma ContainsLikeExact(text: string, w: string, escapes: bool)
    requires IsLiteral(w, escapes)
    ensures ContainsLike(text, w, false, escapes) <==> Contains(text, w)
  {
    ContainsLiteral(text, w, false, escapes);
    forall i | 0 <= i <= |text| ensures MatchesAt(text, w, i, false) <==> OccursAt(text, w, i) {
      if MatchesAt(text, w, i, false) {
        assert text[i..i + |w|] == w;
      }
    }
  }

  /** Where LIKE folds case, a literal search is a substring test on the lower-cased strings. */
  lemma ContainsLikeFolded(text: string, w: string, escapes: bool)
    requires IsLiteral(w, escapes)
    ensures ContainsLike(text, w, true, escapes) <==> Contains(Lower(text), Lower(w))
  {
    ContainsLiteral(text, w, true, escapes);
    forall i | 0 <= i <= |text| ensures MatchesAt(text, w, i, true) <==> OccursAt(Lower(text), Lower(w), i) {
      if MatchesAt(text, w, i, true) {
        assert Lower(text)[i..i + |w|] == Lower(w);
      }
      if OccursAt(Lower(text), Lower(w), i) {
        forall k | 0 <= k < |w| ensures SameChar(text[i + k], w[k], true) {
          assert Lower(text)[i..i + |w|][k] == Lower(w)[k];
        }
      }
    }
  }

  /** Wildcards typed into the search: `%` keeps every text, `_` every non-empty one. */
  lemma {:induction false} WildcardSearches(text: string, ignoreCase: bool, escapes: bool)
    ensures ContainsLike(text, "%", ignoreCase, escapes)
    ensures ContainsLike(text, "_", ignoreCase, escapes) <==> text != []
  {
    assert "%" + "%" + "%" == "%" + ("%" + "%");
    LeadingPercent(text, "%" + "%", ignoreCase, escapes);
    LeadingPercent(text, "%", ignoreCase, escapes);
    PercentMatchesAll(text, ignoreCase, escapes);
    assert text[0..] == text;
    assert "%" + "_" + "%" == "%" + ("_" + "%");
    LeadingPercent(text, "_" + "%", ignoreCase, escapes);
    assert ("_" + "%")[1..] == "%";
    if text != [] {
      PercentMatchesAll(text[1..], ignoreCase, escapes);
    }
  }

  /**
   * Where `\` escapes, a search of `\` becomes the pattern `%\%`: a literal `%` at the
   * end, so it keeps exactly the texts that end in `%`.
   */
  lemma BackslashSearch(text: string, ignoreCase: bool)
    ensures ContainsLike(text, "\\", ignoreCase, true) <==> text != [] && text[|text| - 1] == '%'
  {
    var rest := "\\%";
    assert "%" + "\\" + "%" == "%" + rest;
    LeadingPercent(text, rest, ignoreCase, true);
    assert rest[0] == '\\' && rest[1] == '%' && rest[2..] == [];
    forall i | 0 <= i <= |text| ensures Like(text[i..], rest, ignoreCase, true) <==> i == |text| - 1 && text[i] == '%' {
      if i < |text| {
        assert text[i..][0] == text[i] && text[i..][1..] == text[i + 1..];
      }
    }
    if text != [] && text[|text| - 1] == '%' {
      assert Like(text[|text| - 1..], rest, ignoreCase, true);
    }
  }

  /** Where `\` escapes, `a\b` matches the text `ab`: the backslash is not matched itself. */
  lemma EscapedLetter()
    ensures ContainsLike("ab", "a\\b", false, true)
    ensures !ContainsLike("ab", "a\\b", false, false)
  {
    assert "%" + "a\\b" + "%" == "%" + "a\\b%";
    LeadingPercent("ab", "a\\b%", false, true);
    LeadingPercent("ab", "a\\b%", false, false);
    assert "ab"[0..] == "ab";
    assert "ab"[1..] == "b";
    assert "b"[1..] == [];
    assert "a\\b%"[1..] == "\\b%";
    assert "\\b%"[2..] == "%";
    assert "\\b%"[1..] == "b%";
    PercentMatchesAll([], false, true);
    assert Like("ab", "a\\b%", false, true);
  }
}
