/**
 * The suppression pattern `release.*not found` that DestroyHelm compiles
 * with Go's regexp package (pkg/wkspace/actions.go). `MatchString` looks for
 * the pattern anywhere in the text, and in RE2's default mode `.` matches
 * every character except a newline: the text matches exactly when one of its
 * lines holds "release" and, later on that same line, "not found".
 */
module Suppression {

  const Release: string := "release"
  const NotFound: string := "not found"

  /** `w` occurs in `s` starting at index `i`. */
  predicate OccursAt(s: string, w: string, i: int)
  {
    0 <= i && i + |w| <= |s| && s[i..i + |w|] == w
  }

  /** No newline in `s[lo..hi]`. */
  ghost predicate NoNewline(s: string, lo: int, hi: int)
  {
    0 <= lo <= hi <= |s| && forall m :: lo <= m < hi ==> s[m] != '\n'
  }

  /** The regular expression's meaning: a match starts at some i and the fixed text "not found" at some later j on the same line. */
  ghost predicate ReleaseNotFound(s: string)
  {
    exists i, j :: OccursAt(s, Release, i) && OccursAt(s, NotFound, j) && i + |Release| <= j && NoNewline(s, i + |Release|, j)
  }

  /** A match whose "release" starts at or after index k. */
  ghost predicate MatchFrom(s: string, k: int)
  {
    exists i, j :: k <= i && OccursAt(s, Release, i) && OccursAt(s, NotFound, j) && i + |Release| <= j && NoNewline(s, i + |Release|, j)
  }

  /** A "not found" at or after index k with no newline before it, counted from k. */
  ghost predicate ArmedMatch(s: string, k: int)
  {
    exists j :: k <= j && OccursAt(s, NotFound, j) && NoNewline(s, k, j)
  }

  /**
   * One left-to-right pass over `s` from index k: `armed` records that a
   * "release" has already been seen on the current line.
   */
  function Scan(s: string, k: nat, armed: bool): bool
    requires k <= |s|
    decreases |s| - k
  {
    if k == |s| then false
    else if armed && OccursAt(s, NotFound, k) then true
    else if s[k] == '\n' then Scan(s, k + 1, false)
    else if !armed && OccursAt(s, Release, k) then Scan(s, k + |Release|, true)
    else Scan(s, k + 1, armed)
  }

  /** The checker `ignoreNotFound` passes to the retry loop. */
  function MatchesReleaseNotFound(s: string): bool
  {
    Scan(s, 0, false)
  }

  lemma ReleaseHasNoNewline(s: string, i: int)
    requires OccursAt(s, Release, i)
    ensures NoNewline(s, i, i + |Release|)
  {
    forall m | i <= m < i + |Release|
      ensures s[m] != '\n'
    {
      assert s[m] == s[i..i + |Release|][m - i];
    }
  }

  lemma NotFoundStartsWithN(s: string, j: int)
    requires OccursAt(s, NotFound, j)
    ensures s[j] == 'n'
  {
    assert s[j] == s[j..j + |NotFound|][0];
  }

  lemma ReleaseStartsWithR(s: string, i: int)
    requires OccursAt(s, Release, i)
    ensures s[i] == 'r'
  {
    assert s[i] == s[i..i + |Release|][0];
  }

  /** Two adjacent newline-free ranges make one. */
  lemma NoNewlineJoin(s: string, a: int, b: int, c: int)
    requires NoNewline(s, a, b) && NoNewline(s, b, c)
    ensures NoNewline(s, a, c)
  {
  }

  /** At a newline neither a pending "release" nor a match starting there survives. */
  lemma ScanNewlineStep(s: string, k: nat, armed: bool)
    requires k < |s| && s[k] == '\n'
    ensures (armed && ArmedMatch(s, k)) || MatchFrom(s, k) <==> MatchFrom(s, k + 1)
  {
    if ArmedMatch(s, k) {
      var j :| k <= j && OccursAt(s, NotFound, j) && NoNewline(s, k, j);
      if j == k { NotFoundStartsWithN(s, j); }
      assert false;
    }
    if MatchFrom(s, k) {
      var i, j :| k <= i && OccursAt(s, Release, i) && OccursAt(s, NotFound, j) && i + |Release| <= j && NoNewline(s, i + |Release|, j);
      if i == k { ReleaseStartsWithR(s, i); }
      assert MatchFrom(s, k + 1);
    }
  }

  /** A "release" at k arms the pass from the end of that word on. */
  lemma ScanReleaseStep(s: string, k: nat)
    requires OccursAt(s, Release, k)
    ensures MatchFrom(s, k) <==> ArmedMatch(s, k + |Release|) || MatchFrom(s, k + |Release|)
  {
    var r := |Release|;
    if MatchFrom(s, k) {
      var i, j :| k <= i && OccursAt(s, Release, i) && OccursAt(s, NotFound, j) && i + r <= j && NoNewline(s, i + r, j);
      if i < k + r {
        ReleaseHasNoNewline(s, i);
        NoNewlineJoin(s, i, i + r, j);
        assert NoNewline(s, k + r, j);
        assert ArmedMatch(s, k + r);
      } else {
        assert MatchFrom(s, k + r);
      }
    }
    if ArmedMatch(s, k + r) {
      var j :| k + r <= j && OccursAt(s, NotFound, j) && NoNewline(s, k + r, j);
      assert MatchFrom(s, k);
    }
  }

  /** A pending "not found" further on survives a step past a character that starts none. */
  lemma ArmedAdvance(s: string, k: nat)
    requires k < |s| && !OccursAt(s, NotFound, k) && ArmedMatch(s, k)
    ensures ArmedMatch(s, k + 1)
  {
    var j :| k <= j && OccursAt(s, NotFound, j) && NoNewline(s, k, j);
    assert j != k;
    assert NoNewline(s, k + 1, j);
  }

  /** A pending "not found" after k + 1 is pending at k too when s[k] is no newline. */
  lemma ArmedRetreat(s: string, k: nat)
    requires k < |s| && s[k] != '\n' && ArmedMatch(s, k + 1)
    ensures ArmedMatch(s, k)
  {
    var j :| k + 1 <= j && OccursAt(s, NotFound, j) && NoNewline(s, k + 1, j);
    assert NoNewline(s, k, j);
  }

  /** A match from k is, one character on, either armed or still ahead. */
  lemma MatchAdvance(s: string, k: nat)
    requires k < |s| && MatchFrom(s, k)
    ensures ArmedMatch(s, k + 1) || MatchFrom(s, k + 1)
  {
    var r := |Release|;
    var i, j :| k <= i && OccursAt(s, Release, i) && OccursAt(s, NotFound, j) && i + r <= j && NoNewline(s, i + r, j);
    if i == k {
      ReleaseHasNoNewline(s, i);
      NoNewlineJoin(s, i, i + r, j);
      assert NoNewline(s, k + 1, j);
      assert ArmedMatch(s, k + 1);
    } else {
      assert MatchFrom(s, k + 1);
    }
  }

  /** An armed pass moves past an ordinary character without losing anything. */
  lemma ScanArmedStep(s: string, k: nat)
    requires k < |s| && s[k] != '\n' && !OccursAt(s, NotFound, k)
    ensures ArmedMatch(s, k) || MatchFrom(s, k) <==> ArmedMatch(s, k + 1) || MatchFrom(s, k + 1)
  {
    if ArmedMatch(s, k) {
      ArmedAdvance(s, k);
    }
    if MatchFrom(s, k) {
      MatchAdvance(s, k);
    }
    if ArmedMatch(s, k + 1) {
      ArmedRetreat(s, k);
    }
  }

  /** An unarmed pass moves past a character that starts no "release". */
  lemma ScanPlainStep(s: string, k: nat)
    requires k < |s| && !OccursAt(s, Release, k)
    ensures MatchFrom(s, k) <==> MatchFrom(s, k + 1)
  {
    if MatchFrom(s, k) {
      var i, j :| k <= i && OccursAt(s, Release, i) && OccursAt(s, NotFound, j) && i + |Release| <= j && NoNewline(s, i + |Release|, j);
      assert i != k;
      assert MatchFrom(s, k + 1);
    }
  }

  /** The pass over `s` from k decides exactly the declarative pattern from k. */
  lemma {:induction false} ScanCorrect(s: string, k: nat, armed: bool)
    requires k <= |s|
    ensures Scan(s, k, armed) <==> (armed && ArmedMatch(s, k)) || MatchFrom(s, k)
    decreases |s| - k
  {
    if k == |s| {
    } else if armed && OccursAt(s, NotFound, k) {
      assert NoNewline(s, k, k);
    } else if s[k] == '\n' {
      ScanCorrect(s, k + 1, false);
      ScanNewlineStep(s, k, armed);
    } else if !armed && OccursAt(s, Release, k) {
      ScanCorrect(s, k + |Release|, true);
      ScanReleaseStep(s, k);
    } else if armed {
      ScanCorrect(s, k + 1, true);
      ScanArmedStep(s, k);
    } else {
      ScanCorrect(s, k + 1, false);
      ScanPlainStep(s, k);
    }
  }

  /** The checker accepts a text exactly when the regular expression matches it. */
  lemma MatchesReleaseNotFoundCorrect(s: string)
    ensures MatchesReleaseNotFound(s) <==> ReleaseNotFound(s)
  {
    ScanCorrect(s, 0, false);
    if ReleaseNotFound(s) {
      var i, j :| OccursAt(s, Release, i) && OccursAt(s, NotFound, j) && i + |Release| <= j && NoNewline(s, i + |Release|, j);
      assert MatchFrom(s, 0);
    }
  }

  /** A line break between "release" and "not found" defeats the pattern. */
  lemma NewlineBreaksMatch()
    ensures !MatchesReleaseNotFound("release\nnot found")
  {
    var s := "release\nnot found";
    MatchesReleaseNotFoundCorrect(s);
    if ReleaseNotFound(s) {
      var i, j :| OccursAt(s, Release, i) && OccursAt(s, NotFound, j) && i + |Release| <= j && NoNewline(s, i + |Release|, j);
      ReleaseStartsWithR(s, i);
      NotFoundStartsWithN(s, j);
      assert false;
    }
  }

  /** Any text with "release" and then, with no line break between, "not found" is accepted. */
  lemma ReleaseThenNotFound(a: string, b: string, c: string)
    requires '\n' !in b
    ensures MatchesReleaseNotFound(a + Release + b + NotFound + c)
  {
    var s := a + Release + b + NotFound + c;
    var i, j := |a|, |a| + |Release| + |b|;
    assert s[i..i + |Release|] == Release;
    assert s[j..j + |NotFound|] == NotFound;
    forall m | i + |Release| <= m < j
      ensures s[m] != '\n'
    {
      assert s[m] == b[m - i - |Release|];
    }
    assert OccursAt(s, Release, i) && OccursAt(s, NotFound, j) && NoNewline(s, i + |Release|, j);
    MatchesReleaseNotFoundCorrect(s);
  }

  /** Helm's message for a release deleted by someone else is accepted. */
  lemma HelmNotFoundMessageMatches()
    ensures MatchesReleaseNotFound("Error: uninstall: release: \"foo\" not found")
  {
    ReleaseThenNotFound("Error: uninstall: ", ": \"foo\" ", "");
    assert "Error: uninstall: " + Release + ": \"foo\" " + NotFound + "" == "Error: uninstall: release: \"foo\" not found";
  }
}
