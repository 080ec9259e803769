/**
 * The two global regular-expression matches the extraction step tokenises
 * with: `/\b\w{4,}\b/g` on the lower-cased content (search keywords) and the
 * capitalised-word pattern on the content as written (vocabulary). Both are
 * without the `u` flag, so `\w` and `\b` are about ASCII word characters only.
 */
module Tokens {
  import opened Text
  import Seqs

  /** A token of at least four characters. */
  predicate IsLongToken(w: string) {
    |w| >= 4
  }

  /**
   * `s.match(/\b\w{4,}\b/g) || []`. A match starts at a word boundary, runs
   * greedily over word characters and has to end at a boundary, so the
   * matches are the maximal runs of word characters of length four or more,
   * left to right.
   */
  function LongWords(s: string): (r: seq<string>)
    ensures forall i | 0 <= i < |r| :: |r[i]| >= 4 && forall j | 0 <= j < |r[i]| :: IsWordChar(r[i][j])
  {
    var pieces := Split(s, NonWord);
    var r := Seqs.Filter(pieces, IsLongToken);
    assert forall i | 0 <= i < |r| :: r[i] in pieces;
    r
  }

  /** `[A-ZÀ-ÖØ-Þ]`: the first letter of a vocabulary term. */
  predicate IsCapital(c: char) {
    ('A' <= c <= 'Z') || ('\U{00C0}' <= c <= '\U{00D6}') || ('\U{00D8}' <= c <= '\U{00DE}')
  }

  /** `[a-zà-öø-þß]`: the following letters of a vocabulary term. */
  predicate IsSmall(c: char) {
    ('a' <= c <= 'z') || ('\U{00E0}' <= c <= '\U{00F6}') || ('\U{00F8}' <= c <= '\U{00FE}') || c == '\U{00DF}'
  }

  /** Position `k` holds a word character (outside the string there is none). */
  predicate WordAt(s: string, k: int) {
    0 <= k < |s| && IsWordChar(s[k])
  }

  /** `\b` at position `k`: a word character on exactly one side. */
  predicate Boundary(s: string, k: int) {
    WordAt(s, k - 1) != WordAt(s, k)
  }

  /** A term the capitalised-word pattern can match. */
  predicate IsCapitalized(w: string) {
    |w| >= 2 && IsCapital(w[0]) && forall j | 1 <= j < |w| :: IsSmall(w[j])
  }

  /** The length of the run of small letters starting at `k`: the greedy `+`. */
  function SmallRun(s: string, k: nat): (n: nat)
    requires k <= |s|
    ensures k + n <= |s| && forall j | k <= j < k + n :: IsSmall(s[j])
    ensures k + n == |s| || !IsSmall(s[k + n])
    decreases |s| - k
  {
    if k < |s| && IsSmall(s[k]) then 1 + SmallRun(s, k + 1) else 0
  }

  /**
   * Backtracking of the greedy `+` until the closing `\b` holds: the largest
   * `m` with `1 <= m <= n` and a boundary at `k + m`, or 0 when there is none.
   */
  function BackOff(s: string, k: nat, n: nat): (m: nat)
    requires k + n <= |s|
    ensures m <= n
    ensures m > 0 ==> Boundary(s, k + m)
    ensures forall j | k + m < j <= k + n :: !Boundary(s, j)
  {
    if n == 0 then 0
    else if Boundary(s, k + n) then n
    else BackOff(s, k, n - 1)
  }

  /** The length of the match that starts at `i`, 0 when none does. */
  function MatchAt(s: string, i: nat): (n: nat)
    requires i < |s|
    ensures n == 0 || (i + n <= |s| && IsCapitalized(s[i..i + n]) && Boundary(s, i) && Boundary(s, i + n))
  {
    if Boundary(s, i) && IsCapital(s[i]) then
      var m := BackOff(s, i + 1, SmallRun(s, i + 1));
      if m > 0 then 1 + m else 0
    else 0
  }

  /** The global match from position `i` on: after a match the search resumes where it ended. */
  function CapitalizedFrom(s: string, i: nat): (r: seq<string>)
    requires i <= |s|
    ensures forall k | 0 <= k < |r| :: IsCapitalized(r[k])
    decreases |s| - i
  {
    if i == |s| then []
    else
      var n := MatchAt(s, i);
      if n > 0 then [s[i..i + n]] + CapitalizedFrom(s, i + n) else CapitalizedFrom(s, i + 1)
  }

  /** The capitalised-word match of the vocabulary extraction, `[]` when nothing matches. */
  function CapitalizedWords(s: string): (r: seq<string>)
    ensures forall k | 0 <= k < |r| :: IsCapitalized(r[k])
  {
    CapitalizedFrom(s, 0)
  }

  /**
   * An accented last letter is no word character, so `\b` does not hold after
   * it: the match backs off and the term loses its accented ending.
   */
  lemma AccentedEndingIsCut()
    ensures CapitalizedWords("Café") == ["Caf"]
  {
    var s := "Café";
    assert SmallRun(s, 1) == 3;
    assert !Boundary(s, 4) && Boundary(s, 3);
    assert MatchAt(s, 0) == 3;
    assert s[0..3] == "Caf";
    assert CapitalizedFrom(s, 3) == [];
  }

  /**
   * An accented capital is no word character either, so no `\b` precedes it at
   * the start of the text: `Élève` alone is not matched.
   */
  lemma AccentedCapitalIsSkipped()
    ensures CapitalizedWords("Élève") == []
  {
    var s := "Élève";
    assert !Boundary(s, 0);
    assert MatchAt(s, 0) == 0;
    assert forall i | 1 <= i < |s| :: !IsCapital(s[i]);
    assert CapitalizedFrom(s, 1) == [] by {
      assert MatchAt(s, 1) == 0;
      assert MatchAt(s, 2) == 0;
      assert MatchAt(s, 3) == 0;
      assert MatchAt(s, 4) == 0;
    }
  }

  /**
   * A match can start on a capital that is no word character, such as an
   * accented one, only right after a word character: elsewhere no `\b`
   * precedes it.
   */
  lemma NonWordCapitalNeedsWordBefore(s: string, i: nat)
    requires i < |s| && !IsWordChar(s[i])
    ensures MatchAt(s, i) > 0 ==> i > 0 && IsWordChar(s[i - 1])
  {
    if MatchAt(s, i) > 0 {
      assert Boundary(s, i) && !WordAt(s, i);
    }
  }

  /** After an ASCII digit the `\b` holds, so `Élève` is matched whole. */
  lemma AccentedCapitalAfterDigit()
    ensures CapitalizedWords("5Élève") == ["Élève"]
  {
    var s := "5Élève";
    assert MatchAt(s, 0) == 0;
    assert Boundary(s, 1) && Boundary(s, 6);
    assert SmallRun(s, 2) == 4;
    assert MatchAt(s, 1) == 5;
    assert s[1..6] == "Élève";
    assert CapitalizedFrom(s, 6) == [];
  }
}
