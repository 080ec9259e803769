/**
 * String primitives of JavaScript that the pipeline is written with:
 * `includes`, global regular-expression matching of a literal pattern,
 * `replace` with a global pattern, `split` on a character class, `trim`,
 * `join` and capitalisation of a first letter.
 */
module Text {

  /** `p` occurs in `s` starting at offset `i`. */
  predicate OccursAt(s: string, p: string, i: int) {
    0 <= i && i + |p| <= |s| && s[i..i + |p|] == p
  }

  /** Occurrences in `s[1..]` are the occurrences in `s` shifted by one. */
  lemma OccursAtTail(s: string, p: string)
    requires |s| > 0
    ensures forall i :: OccursAt(s[1..], p, i) ==> OccursAt(s, p, i + 1)
    ensures forall i :: 1 <= i && OccursAt(s, p, i) ==> OccursAt(s[1..], p, i - 1)
  {
    forall i | OccursAt(s[1..], p, i) ensures OccursAt(s, p, i + 1) {
      assert s[1..][i..i + |p|] == s[i + 1..i + 1 + |p|];
    }
    forall i | 1 <= i && OccursAt(s, p, i) ensures OccursAt(s[1..], p, i - 1) {
      assert s[1..][i - 1..i - 1 + |p|] == s[i..i + |p|];
    }
  }

  /** `s.includes(p)`: true iff `p` occurs somewhere in `s`. */
  function Contains(s: string, p: string): (r: bool)
    decreases |s|
    ensures r <==> exists i :: OccursAt(s, p, i)
  {
    if |p| > |s| then false
    else if s[..|p|] == p then
      assert OccursAt(s, p, 0);
      true
    else
      var r := Contains(s[1..], p);
      OccursAtTail(s, p);
      assert !OccursAt(s, p, 0);
      r
  }

  /** `words.some(w => s.includes(w))`. */
  function MentionsAny(s: string, words: seq<string>): (r: bool)
    ensures r <==> exists i :: 0 <= i < |words| && Contains(s, words[i])
  {
    if words == [] then false
    else
      var rest := MentionsAny(s, words[1..]);
      assert forall i :: 1 <= i < |words| ==> words[i] == words[1..][i - 1];
      Contains(s, words[0]) || rest
  }

  /** An empty string mentions no non-empty word. */
  lemma NoMentionInEmpty(t: string, words: seq<string>)
    requires |t| == 0
    requires forall i | 0 <= i < |words| :: |words[i]| > 0
    ensures !MentionsAny(t, words)
  {
  }

  /** A match inside a part is a match inside any string built around it. */
  lemma ContainsInfix(a: string, b: string, c: string, p: string)
    requires Contains(b, p)
    ensures Contains(a + b + c, p)
  {
    var i :| OccursAt(b, p, i);
    assert (a + b + c)[|a| + i..|a| + i + |p|] == b[i..i + |p|];
    assert OccursAt(a + b + c, p, |a| + i);
  }

  /** A string containing `p + q` contains `p`. */
  lemma ContainsPrefix(s: string, p: string, q: string)
    requires Contains(s, p + q)
    ensures Contains(s, p)
  {
    var i :| OccursAt(s, p + q, i);
    assert s[i..i + |p|] == (p + q)[..|p|];
    assert OccursAt(s, p, i);
  }

  /** The parts written one after another: a template literal with its interpolations. */
  function Concat(parts: seq<string>): string {
    if parts == [] then "" else parts[0] + Concat(parts[1..])
  }

  /** `xs.map(f).join('')`: the pieces written for each element, in order. */
  function ConcatMap<T>(xs: seq<T>, f: T -> string): string {
    if xs == [] then "" else f(xs[0]) + ConcatMap(xs[1..], f)
  }

  /** A match inside one part of a template is a match inside the whole template. */
  lemma {:induction false} ContainsConcat(parts: seq<string>, k: nat, p: string)
    requires k < |parts| && Contains(parts[k], p)
    ensures Contains(Concat(parts), p)
    decreases k
  {
    if k == 0 {
      ContainsInfix("", parts[0], Concat(parts[1..]), p);
      assert "" + parts[0] + Concat(parts[1..]) == Concat(parts);
    } else {
      ContainsConcat(parts[1..], k - 1, p);
      ContainsInfix(parts[0], Concat(parts[1..]), "", p);
      assert parts[0] + Concat(parts[1..]) + "" == Concat(parts);
    }
  }

  /** A marker written between two pieces of text. */
  lemma ContainsMarker(a: string, p: string, c: string)
    ensures Contains(a + p + c, p)
  {
    ContainsSelf(p);
    ContainsInfix(a, p, c, p);
  }

  /** A string always contains itself. */
  lemma ContainsSelf(p: string)
    ensures Contains(p, p)
  {
    assert OccursAt(p, p, 0);
  }

  /**
   * `(s.match(new RegExp(p, 'g')) || []).length` for a pattern `p` without
   * regular-expression metacharacters: the number of non-overlapping
   * occurrences found scanning left to right. The empty pattern matches at
   * each of the `|s| + 1` positions.
   */
  function CountMatches(s: string, p: string): (n: nat)
    decreases |s|
    ensures n > 0 <==> Contains(s, p)
    ensures |p| > 0 ==> n * |p| <= |s|
  {
    if |p| == 0 then
      assert OccursAt(s, p, 0);
      |s| + 1
    else if |p| > |s| then 0
    else if s[..|p|] == p then
      var m := CountMatches(s[|p|..], p);
      OneMoreTimes(m, |p|);
      1 + m
    else
      CountMatches(s[1..], p)
  }

  /** `(1 + m) * k` is one more `k` than `m * k`. */
  lemma OneMoreTimes(m: nat, k: nat)
    ensures (1 + m) * k == k + m * k
  {
  }

  /** `s.replace(new RegExp(pat, 'g'), rep)` for a literal pattern. */
  function ReplaceAll(s: string, pat: string, rep: string): (r: string)
    requires |pat| > 0
    decreases |s|
    ensures !Contains(s, pat) ==> r == s
  {
    if |pat| > |s| then s
    else if s[..|pat|] == pat then rep + ReplaceAll(s[|pat|..], pat, rep)
    else [s[0]] + ReplaceAll(s[1..], pat, rep)
  }

  /** The first character of a pair replacement: the replacement if a match starts there. */
  lemma {:induction false} ReplacePairHead(s: string, a: char, b: char, c: char)
    requires |s| > 0
    ensures var r := ReplaceAll(s, [a, b], [c]);
      |r| > 0 && r[0] == (if |s| >= 2 && s[..2] == [a, b] then c else s[0])
  {
  }

  /**
   * Replacing every two-letter `ab` by a single letter `c` different from
   * both leaves no `ab` behind.
   */
  lemma {:induction false} ReplacePairRemoves(s: string, a: char, b: char, c: char)
    requires c != a && c != b
    ensures !Contains(ReplaceAll(s, [a, b], [c]), [a, b])
    decreases |s|
  {
    var r := ReplaceAll(s, [a, b], [c]);
    if |s| < 2 {
      assert r == s;
    } else if s[..2] == [a, b] {
      var t := ReplaceAll(s[2..], [a, b], [c]);
      ReplacePairRemoves(s[2..], a, b, c);
      assert r == [c] + t;
      assert r[1..] == t;
      assert r[0] == c;
      if |r| >= 2 {
        assert r[..2][0] != a;
      }
    } else {
      var t := ReplaceAll(s[1..], [a, b], [c]);
      ReplacePairRemoves(s[1..], a, b, c);
      assert r == [s[0]] + t;
      assert r[1..] == t;
      if |r| >= 2 {
        ReplacePairHead(s[1..], a, b, c);
        assert r[..2] != [a, b];
      }
    }
  }

  /**
   * Replacing a two-letter pattern by a single letter `c` creates no new
   * occurrence of a two-letter `xy` when `c` is neither `x` nor `y`.
   */
  lemma {:induction false} ReplacePairKeepsAbsent(s: string, a: char, b: char, c: char, x: char, y: char)
    requires c != x && c != y
    requires !Contains(s, [x, y])
    ensures !Contains(ReplaceAll(s, [a, b], [c]), [x, y])
    decreases |s|
  {
    var r := ReplaceAll(s, [a, b], [c]);
    if |s| < 2 {
      assert r == s;
    } else if s[..2] == [a, b] {
      var t := ReplaceAll(s[2..], [a, b], [c]);
      SuffixContains(s, [x, y], 2);
      ReplacePairKeepsAbsent(s[2..], a, b, c, x, y);
      assert r == [c] + t;
      assert r[1..] == t;
      assert r[0] == c;
      if |r| >= 2 {
        assert r[..2][0] != x;
      }
    } else {
      var t := ReplaceAll(s[1..], [a, b], [c]);
      SuffixContains(s, [x, y], 1);
      ReplacePairKeepsAbsent(s[1..], a, b, c, x, y);
      assert r == [s[0]] + t;
      assert r[1..] == t;
      if |r| >= 2 {
        ReplacePairHead(s[1..], a, b, c);
        assert !OccursAt(s, [x, y], 0);
        assert r[..2] != [x, y];
      }
    }
  }

  /** What a suffix of a string contains, the string contains: a suffix of a string without `p` has none. */
  lemma SuffixContains(s: string, p: string, k: nat)
    requires k <= |s|
    ensures Contains(s[k..], p) ==> Contains(s, p)
  {
    if Contains(s[k..], p) {
      var i :| OccursAt(s[k..], p, i);
      assert s[k..][i..i + |p|] == s[k + i..k + i + |p|];
      assert OccursAt(s, p, k + i);
    }
  }

  /**
   * `s.length`: the number of UTF-16 code units, so a character beyond the
   * Basic Multilingual Plane counts twice.
   */
  function Utf16Length(s: string): (n: nat)
    ensures |s| <= n <= 2 * |s|
    ensures n == |s| <==> forall i | 0 <= i < |s| :: s[i] <= '\U{FFFF}'
  {
    if s == [] then 0 else Utf16Length(s[1..]) + (if s[0] <= '\U{FFFF}' then 1 else 2)
  }

  /** ECMAScript `\s`: the WhiteSpace and LineTerminator code points. */
  predicate IsJsSpace(c: char) {
    || c == '\t' || c == '\n' || c == '\U{000B}' || c == '\U{000C}' || c == '\r' || c == ' '
    || c == '\U{00A0}' || c == '\U{1680}' || ('\U{2000}' <= c <= '\U{200A}')
    || c == '\U{2028}' || c == '\U{2029}' || c == '\U{202F}' || c == '\U{205F}'
    || c == '\U{3000}' || c == '\U{FEFF}'
  }

  /** No character of `s` satisfies `\s`. */
  predicate NoSpace(s: string) {
    forall i :: 0 <= i < |s| ==> !IsJsSpace(s[i])
  }

  /** `s.trim()` is non-empty: some character of `s` is not `\s`. */
  predicate TrimNonEmpty(s: string) {
    exists i :: 0 <= i < |s| && !IsJsSpace(s[i])
  }

  /** ECMAScript `\w` without the `u` flag: ASCII letters, digits and `_`. */
  predicate IsWordChar(c: char) {
    ('a' <= c <= 'z') || ('A' <= c <= 'Z') || ('0' <= c <= '9') || c == '_'
  }

  /** The character classes the source splits or tokenises on. */
  datatype CharClass = Spaces | SentenceMarks | NonWord

  /** `Spaces` is `\s`, `SentenceMarks` is `[.!?]`, `NonWord` is `\W`. */
  predicate InClass(k: CharClass, c: char) {
    match k
    case Spaces => IsJsSpace(c)
    case SentenceMarks => c == '.' || c == '!' || c == '?'
    case NonWord => !IsWordChar(c)
  }

  /** `s` without its maximal leading run of `k` characters. */
  function DropRun(s: string, k: CharClass): (r: string)
    ensures |r| <= |s| && r == s[|s| - |r|..]
    ensures r == [] || !InClass(k, r[0])
  {
    if s != [] && InClass(k, s[0]) then DropRun(s[1..], k) else s
  }

  /**
   * `s.split(/k+/)`: the pieces between maximal runs of class `k`, with an
   * empty first piece when `s` starts with a run and an empty last piece
   * when it ends with one.
   */
  function Split(s: string, k: CharClass): (r: seq<string>)
    ensures |r| >= 1
    ensures forall i, j :: 0 <= i < |r| && 0 <= j < |r[i]| ==> !InClass(k, r[i][j])
  {
    SplitFrom(s, k, "")
  }

  /** `Split` with the characters of the current piece already read into `cur`. */
  function SplitFrom(s: string, k: CharClass, cur: string): (r: seq<string>)
    requires forall j :: 0 <= j < |cur| ==> !InClass(k, cur[j])
    ensures |r| >= 1
    ensures forall i, j :: 0 <= i < |r| && 0 <= j < |r[i]| ==> !InClass(k, r[i][j])
    decreases |s|
  {
    if s == [] then [cur]
    else if InClass(k, s[0]) then [cur] + SplitFrom(DropRun(s, k), k, "")
    else SplitFrom(s[1..], k, cur + [s[0]])
  }

  /** Reading on through characters outside the class only extends the current piece. */
  lemma {:induction false} SplitFromNoClass(s: string, k: CharClass, cur: string)
    requires forall j :: 0 <= j < |cur| ==> !InClass(k, cur[j])
    requires forall j :: 0 <= j < |s| ==> !InClass(k, s[j])
    ensures SplitFrom(s, k, cur) == [cur + s]
    decreases |s|
  {
    if s == [] {
      assert cur + s == cur;
    } else {
      assert !InClass(k, s[0]);
      SplitFromNoClass(s[1..], k, cur + [s[0]]);
      assert cur + [s[0]] + s[1..] == cur + s;
    }
  }

  /** A string without a character of the class splits into itself alone. */
  lemma SplitNoClass(s: string, k: CharClass)
    requires forall j :: 0 <= j < |s| ==> !InClass(k, s[j])
    ensures Split(s, k) == [s]
  {
    SplitFromNoClass(s, k, "");
    assert "" + s == s;
  }

  /** `s.replace(/\s+/g, '-')`: every maximal run of `\s` becomes one hyphen. */
  function DashSpaces(s: string): (r: string)
    ensures NoSpace(r)
    ensures |r| <= |s|
    decreases |s|
  {
    if s == [] then []
    else if IsJsSpace(s[0]) then "-" + DashSpaces(DropRun(s, Spaces))
    else [s[0]] + DashSpaces(s[1..])
  }

  /** `parts.join(sep)`. */
  function Join(parts: seq<string>, sep: string): string {
    if parts == [] then ""
    else if |parts| == 1 then parts[0]
    else parts[0] + sep + Join(parts[1..], sep)
  }

  /** `Join` starts with its first part. */
  lemma JoinStarts(parts: seq<string>, sep: string)
    requires parts != []
    ensures |Join(parts, sep)| >= |parts[0]| && Join(parts, sep)[..|parts[0]|] == parts[0]
  {
    if |parts| > 1 {
      assert Join(parts, sep) == parts[0] + (sep + Join(parts[1..], sep));
    }
  }

  /** Every part of a join occurs in it. */
  lemma {:induction false} JoinContains(parts: seq<string>, sep: string, k: nat)
    requires k < |parts|
    ensures Contains(Join(parts, sep), parts[k])
    decreases k
  {
    if |parts| == 1 {
      ContainsSelf(parts[0]);
    } else if k == 0 {
      ContainsSelf(parts[0]);
      ContainsInfix("", parts[0], sep + Join(parts[1..], sep), parts[0]);
      assert "" + parts[0] + (sep + Join(parts[1..], sep)) == Join(parts, sep);
    } else {
      JoinContains(parts[1..], sep, k - 1);
      ContainsInfix(parts[0] + sep, Join(parts[1..], sep), "", parts[k]);
      assert parts[0] + sep + Join(parts[1..], sep) + "" == Join(parts, sep);
    }
  }

  /** A prefix without `\s` passes through the hyphenation unchanged. */
  lemma {:induction false} DashSpacesPrefix(x: string, y: string)
    requires NoSpace(x)
    ensures DashSpaces(x + y) == x + DashSpaces(y)
    decreases |x|
  {
    if x != [] {
      var xy := x + y;
      assert xy[0] == x[0] && !IsJsSpace(xy[0]);
      assert xy[1..] == x[1..] + y;
      assert DashSpaces(xy) == [x[0]] + DashSpaces(x[1..] + y);
      DashSpacesPrefix(x[1..], y);
      assert [x[0]] + (x[1..] + DashSpaces(y)) == x + DashSpaces(y);
    } else {
      assert x + y == y;
    }
  }

  /** One space before a word that does not start with `\s` becomes one hyphen. */
  lemma DashSpacesAfterSpace(j: string)
    requires j != [] && !IsJsSpace(j[0])
    ensures DashSpaces(" " + j) == "-" + DashSpaces(j)
  {
    var sj := " " + j;
    assert sj[1..] == j;
    assert DropRun(sj, Spaces) == j;
  }

  /**
   * Joining words without `\s` on single spaces and then hyphenating is
   * joining them on hyphens.
   */
  lemma {:induction false} DashSpacesJoin(parts: seq<string>)
    requires forall i | 0 <= i < |parts| :: |parts[i]| > 0 && NoSpace(parts[i])
    ensures DashSpaces(Join(parts, " ")) == Join(parts, "-")
    decreases |parts|
  {
    if parts == [] {
    } else if |parts| == 1 {
      DashSpacesPrefix(parts[0], "");
      assert parts[0] + "" == parts[0];
    } else {
      var rest := parts[1..];
      forall i | 0 <= i < |rest| ensures |rest[i]| > 0 && NoSpace(rest[i]) {
        assert rest[i] == parts[i + 1];
      }
      var j := Join(rest, " ");
      var dashed := Join(rest, "-");
      JoinStarts(rest, " ");
      assert j[0] == rest[0][0];
      DashSpacesAfterSpace(j);
      DashSpacesJoin(rest);
      assert DashSpaces(" " + j) == "-" + dashed;
      DashSpacesPrefix(parts[0], " " + j);
      assert Join(parts, " ") == parts[0] + (" " + j);
      assert Join(parts, "-") == parts[0] + ("-" + dashed);
    }
  }

  /**
   * `s.charAt(0).toUpperCase() + s.slice(1)` for the fixed identifiers it is
   * applied to, whose first letter is an ASCII letter.
   */
  function Capitalize(s: string): (r: string)
    ensures |r| == |s| && (|s| > 0 ==> r[1..] == s[1..])
  {
    if s != [] && 'a' <= s[0] <= 'z' then [(s[0] as int - 32) as char] + s[1..] else s
  }
}
