/**
 * SQLite's built-in LIKE operator, as used by the product text search:
 * `nombre LIKE '%text%' OR descripcion LIKE '%text%'`.
 *
 * With no ESCAPE clause, '%' matches any run of characters, '_' matches
 * exactly one character, and every other pattern character matches a
 * character equal to it up to ASCII case folding (SQLite folds only 'A'..'Z';
 * other letters such as accented ones are compared exactly).
 */
module SqlLike {

  /** ASCII lower-casing: the only case folding SQLite's default LIKE applies. */
  function FoldCase(c: char): (d: char)
    ensures !('A' <= d <= 'Z')
    ensures 'A' <= c <= 'Z' ==> d as int == c as int + 32
    ensures !('A' <= c <= 'Z') ==> d == c
  {
    if 'A' <= c <= 'Z' then (c as int - 'A' as int + 'a' as int) as char else c
  }

  /** A text character matches a literal pattern character. */
  predicate CharMatches(s: char, p: char)
  {
    FoldCase(s) == FoldCase(p)
  }

  predicate IsWildcard(c: char)
  {
    c == '%' || c == '_'
  }

  /** `s LIKE p`. A pattern with no '%' matches only texts of its own length. */
  predicate Like(s: string, p: string)
    ensures Like(s, p) && (forall k :: 0 <= k < |p| ==> p[k] != '%') ==> |s| == |p|
    decreases |p|, |s|
  {
    if |p| == 0 then |s| == 0
    else if p[0] == '%' then Like(s, p[1..]) || (|s| > 0 && Like(s[1..], p))
    else if p[0] == '_' then |s| > 0 && Like(s[1..], p[1..])
    else |s| > 0 && CharMatches(s[0], p[0]) && Like(s[1..], p[1..])
  }

  /** The pattern the search builds from its text: f'%{busqueda}%'. */
  function ContainsPattern(t: string): (p: string)
    ensures |p| == |t| + 2 && p[0] == '%' && p[|p| - 1] == '%'
    ensures p[1..|p| - 1] == t
  {
    "%" + t + "%"
  }

  /** The text has no character LIKE would read as a wildcard. */
  predicate Literal(t: string)
  {
    forall k :: 0 <= k < |t| ==> !IsWildcard(t[k])
  }

  /** s starts with t, ignoring ASCII case. */
  predicate PrefixFold(t: string, s: string)
  {
    |t| <= |s| && forall k :: 0 <= k < |t| ==> CharMatches(s[k], t[k])
  }

  /** t occurs in s at some position, ignoring ASCII case. */
  predicate ContainsFold(s: string, t: string)
  {
    exists i :: 0 <= i <= |s| && PrefixFold(t, s[i..])
  }

  /** A lone '%' matches every text. */
  lemma {:induction false} LikePercentAll(s: string)
    ensures Like(s, "%")
    decreases |s|
  {
    assert "%"[1..] == "";
    if |s| > 0 {
      LikePercentAll(s[1..]);
    }
  }

  /** For a literal t, `s LIKE t || '%'` holds exactly when s starts with t. */
  lemma {:induction false} LikeLiteralPrefix(s: string, t: string)
    requires Literal(t)
    ensures Like(s, t + "%") <==> PrefixFold(t, s)
    decreases |t|
  {
    if |t| == 0 {
      assert t + "%" == "%";
      LikePercentAll(s);
    } else {
      var p := t + "%";
      assert p[0] == t[0] && !IsWildcard(p[0]);
      assert p[1..] == t[1..] + "%";
      assert Literal(t[1..]) by {
        forall k | 0 <= k < |t[1..]| ensures !IsWildcard(t[1..][k]) {
          assert t[1..][k] == t[k + 1];
        }
      }
      if |s| > 0 {
        LikeLiteralPrefix(s[1..], t[1..]);
        if PrefixFold(t, s) {
          forall k | 0 <= k < |t[1..]| ensures CharMatches(s[1..][k], t[1..][k]) {
            assert s[1..][k] == s[k + 1] && t[1..][k] == t[k + 1];
          }
        }
        if CharMatches(s[0], t[0]) && PrefixFold(t[1..], s[1..]) {
          forall k | 0 <= k < |t| ensures CharMatches(s[k], t[k]) {
            if k > 0 {
              assert s[1..][k - 1] == s[k] && t[1..][k - 1] == t[k];
            }
          }
        }
      }
    }
  }

  /** A leading '%' lets the rest of the pattern match any suffix of the text. */
  lemma {:induction false} LikeLeadingPercent(s: string, q: string)
    ensures Like(s, "%" + q) <==> exists i :: 0 <= i <= |s| && Like(s[i..], q)
    decreases |s|
  {
    var p := "%" + q;
    assert p[0] == '%' && p[1..] == q;
    assert s[0..] == s;
    if |s| > 0 {
      LikeLeadingPercent(s[1..], q);
      if Like(s[1..], p) {
        var i :| 0 <= i <= |s[1..]| && Like(s[1..][i..], q);
        assert s[1..][i..] == s[i + 1..];
      }
      if i :| 0 <= i <= |s| && Like(s[i..], q) {
        if i > 0 {
          assert s[1..][i - 1..] == s[i..];
        }
      }
    } else {
      if i :| 0 <= i <= |s| && Like(s[i..], q) {
        assert s[i..] == s;
      }
    }
  }

  /**
   * The search filter on a text with no wildcard characters is a
   * case-insensitive (ASCII) substring test.
   */
  lemma {:induction false} LikeContainsIsSubstring(s: string, t: string)
    requires Literal(t)
    ensures Like(s, ContainsPattern(t)) <==> ContainsFold(s, t)
  {
    assert ContainsPattern(t) == "%" + (t + "%");
    LikeLeadingPercent(s, t + "%");
    forall i | 0 <= i <= |s| ensures Like(s[i..], t + "%") <==> PrefixFold(t, s[i..]) {
      LikeLiteralPrefix(s[i..], t);
    }
  }

  /** A wildcard in the search text is not read literally: '_' matches any one character. */
  lemma UnderscoreMatchesAnyCharacter(c: char)
    ensures Like([c], ContainsPattern("_"))
    ensures c != '_' ==> !ContainsFold([c], "_")
  {
    var p := ContainsPattern("_");
    assert p == "%_%";
    assert p[1..] == "_%" && p[1..][1..] == "%";
    assert [c][1..] == "";
    LikePercentAll("");
    if c != '_' {
      forall i | 0 <= i <= 1 ensures !PrefixFold("_", [c][i..]) {
        if i == 0 {
          assert [c][i..][0] == c;
          assert FoldCase(c) != '_';
        }
      }
    }
  }
}
