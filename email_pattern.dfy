/**
 * The e-mail test shared by the registration and demo-request forms: the
 * JavaScript regular expression `/\S+@\S+\.\S+/`, which has no anchors and so
 * succeeds when SOME substring of the input has the form a@b.c with a, b and c
 * non-empty runs of non-whitespace characters.
 *
 * `MatchesEmail` states that meaning directly; `TestEmail` decides it by
 * trying each '@' in turn, as a backtracking engine does, and
 * `TestEmailCorrect` proves the two agree on every string.
 */
module EmailPattern {
  import opened JsText

  /** What `\S` matches. */
  predicate NonSpace(c: char)
  {
    !IsWhitespace(c)
  }

  /** s[a..b] is a run of `\S` characters. */
  ghost predicate NonSpaceBetween(s: string, a: int, b: int)
    requires 0 <= a <= b <= |s|
  {
    forall x | a <= x < b :: NonSpace(s[x])
  }

  /** s[i..j] is the first run, s[j] the '@', s[j+1..k] the second run,
      s[k] the '.', s[k+1..l] the third run. */
  ghost predicate MatchAt(s: string, i: int, j: int, k: int, l: int)
  {
    && 0 <= i < j && j + 1 < k && k + 1 < l <= |s|
    && NonSpaceBetween(s, i, j) && s[j] == '@'
    && NonSpaceBetween(s, j + 1, k) && s[k] == '.'
    && NonSpaceBetween(s, k + 1, l)
  }

  /** `/\S+@\S+\.\S+/.test(s)`: the pattern matches some substring of s. */
  ghost predicate MatchesEmail(s: string)
  {
    exists i, j, k, l :: MatchAt(s, i, j, k, l)
  }

  /** A shortest match around an '@' at j and a '.' at k: one character
      before the '@', one after the '.', and the whole run between them. */
  ghost predicate MatchAround(s: string, j: int, k: int)
  {
    && 0 < j && j + 1 < k && k + 1 < |s|
    && NonSpace(s[j - 1]) && s[j] == '@'
    && NonSpaceBetween(s, j + 1, k) && s[k] == '.'
    && NonSpace(s[k + 1])
  }

  /** The outer runs of a match can always be shrunk to one character, so a
      match is decided by the '@', the '.' and the characters between them. */
  lemma MatchesEmailIffAround(s: string)
    ensures MatchesEmail(s) <==> exists j, k :: MatchAround(s, j, k)
  {
    if MatchesEmail(s) {
      var i, j, k, l :| MatchAt(s, i, j, k, l);
      assert MatchAround(s, j, k);
    }
    if exists j, k :: MatchAround(s, j, k) {
      var j, k :| MatchAround(s, j, k);
      assert MatchAt(s, j - 1, j, k, k + 2);
    }
  }

  /** From index k on, the run continues up to a '.' that is followed by one
      more non-whitespace character. */
  predicate DotAhead(s: string, k: nat)
    decreases |s| - k
  {
    && k + 1 < |s|
    && NonSpace(s[k])
    && ((s[k] == '.' && NonSpace(s[k + 1])) || DotAhead(s, k + 1))
  }

  /** Some '@' at index j or later has a non-whitespace character on each
      side and a `DotAhead` after that. */
  predicate SearchFrom(s: string, j: nat)
    requires 0 < j
    decreases |s| - j
  {
    && j < |s|
    && ((&& s[j] == '@' && NonSpace(s[j - 1])
         && j + 1 < |s| && NonSpace(s[j + 1]) && DotAhead(s, j + 2))
        || SearchFrom(s, j + 1))
  }

  /** The test the forms run: an '@' at index 0 can never follow a first run,
      so the search starts at index 1. */
  predicate TestEmail(s: string)
  {
    SearchFrom(s, 1)
  }

  lemma {:induction false} DotAheadIff(s: string, k: nat)
    decreases |s| - k
    ensures DotAhead(s, k) <==>
      exists q :: k <= q && q + 1 < |s| && s[q] == '.' && NonSpaceBetween(s, k, q + 2)
  {
    if k + 1 < |s| && NonSpace(s[k]) {
      DotAheadIff(s, k + 1);
      if s[k] == '.' && NonSpace(s[k + 1]) {
        assert NonSpaceBetween(s, k, k + 2);
      } else if exists q :: k <= q && q + 1 < |s| && s[q] == '.' && NonSpaceBetween(s, k, q + 2) {
        var q :| k <= q && q + 1 < |s| && s[q] == '.' && NonSpaceBetween(s, k, q + 2);
        assert q != k;
        assert NonSpaceBetween(s, k + 1, q + 2);
      }
    }
  }

  lemma {:induction false} SearchFromIff(s: string, j: nat)
    requires 0 < j
    decreases |s| - j
    ensures SearchFrom(s, j) <==> exists j', k :: j <= j' && MatchAround(s, j', k)
  {
    if j < |s| {
      SearchFromIff(s, j + 1);
      if j + 1 < |s| {
        DotAheadIff(s, j + 2);
      }
      if s[j] == '@' && NonSpace(s[j - 1]) && j + 1 < |s| && NonSpace(s[j + 1]) && DotAhead(s, j + 2) {
        var q :| j + 2 <= q && q + 1 < |s| && s[q] == '.' && NonSpaceBetween(s, j + 2, q + 2);
        assert MatchAround(s, j, q);
      }
      if exists j', k :: j <= j' && MatchAround(s, j', k) {
        var j', k :| j <= j' && MatchAround(s, j', k);
        if j' == j {
          assert NonSpace(s[j + 1]) && NonSpaceBetween(s, j + 2, k + 2);
        }
      }
    }
  }

  /** The search decides the regular expression exactly. */
  lemma TestEmailCorrect(s: string)
    ensures TestEmail(s) <==> MatchesEmail(s)
  {
    SearchFromIff(s, 1);
    MatchesEmailIffAround(s);
    if exists j', k :: 0 <= j' && MatchAround(s, j', k) {
      var j', k :| 0 <= j' && MatchAround(s, j', k);
      assert 1 <= j' && MatchAround(s, j', k);
    }
  }

  /** The pattern is unanchored: text around a matching string never
      stops it from matching. */
  lemma MatchesEmailInContext(x: string, s: string, y: string)
    requires MatchesEmail(s)
    ensures MatchesEmail(x + s + y)
  {
    var i, j, k, l :| MatchAt(s, i, j, k, l);
    var t, n := x + s + y, |x|;
    assert forall p | 0 <= p < |s| :: t[n + p] == s[p];
    assert MatchAt(t, n + i, n + j, n + k, n + l);
  }

  /** Inputs the form sees in practice. */
  lemma TestEmailAccepts()
    ensures TestEmail("ann@example.com")
  {
  }

  lemma TestEmailAcceptsInsideText()
    ensures TestEmail("see a@b.c now")
  {
  }

  lemma TestEmailRejects()
    ensures !TestEmail("ann@example")
    ensures !TestEmail("a @b.c")
    ensures !TestEmail("@b.c")
    ensures !TestEmail("a@.c")
    ensures !TestEmail("")
  {
  }
}
