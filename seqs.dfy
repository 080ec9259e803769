/**
 * Sequence operations the pipeline uses: `Array.prototype.filter`,
 * `[...new Set(xs)]` (duplicates dropped, first occurrences kept in order)
 * and the notions of subsequence and first-occurrence order that describe them.
 */
module Seqs {

  /** No element occurs twice. */
  predicate Distinct<T(==)>(s: seq<T>) {
    forall i, j :: 0 <= i < j < |s| ==> s[i] != s[j]
  }

  /** `a` is `b` with some elements deleted, order kept. */
  predicate IsSubseq<T(==)>(a: seq<T>, b: seq<T>)
    decreases |b|
  {
    if a == [] then true
    else if b == [] then false
    else if a[|a| - 1] == b[|b| - 1] then IsSubseq(a[..|a| - 1], b[..|b| - 1])
    else IsSubseq(a, b[..|b| - 1])
  }

  /** Appending to the larger sequence keeps a subsequence a subsequence. */
  lemma {:induction false} SubseqSnoc<T>(a: seq<T>, b: seq<T>, x: T)
    requires IsSubseq(a, b)
    ensures IsSubseq(a, b + [x])
    decreases |b|, 1
  {
    if a != [] {
      assert (b + [x])[..|b|] == b;
      if a[|a| - 1] == x {
        SubseqDropLast(a, b);
      }
    }
  }

  /** A subsequence of `b` without its last element is still one of `b`. */
  lemma {:induction false} SubseqDropLast<T>(a: seq<T>, b: seq<T>)
    requires a != [] && IsSubseq(a, b)
    ensures IsSubseq(a[..|a| - 1], b)
    decreases |b|, 0
  {
    if a[|a| - 1] == b[|b| - 1] {
      SubseqSnoc(a[..|a| - 1], b[..|b| - 1], b[|b| - 1]);
      assert b[..|b| - 1] + [b[|b| - 1]] == b;
    } else {
      SubseqDropLast(a, b[..|b| - 1]);
      SubseqSnoc(a[..|a| - 1], b[..|b| - 1], b[|b| - 1]);
      assert b[..|b| - 1] + [b[|b| - 1]] == b;
    }
  }

  /** `s.filter(p)`: the elements satisfying `p`, in their order in `s`. */
  function Filter<T>(s: seq<T>, p: T -> bool): (r: seq<T>)
    ensures |r| <= |s|
    ensures forall x | x in r :: x in s && p(x)
    ensures forall x | x in s && p(x) :: x in r
    ensures IsSubseq(r, s)
  {
    if s == [] then []
    else
      var init := s[..|s| - 1];
      var last := s[|s| - 1];
      var r := Filter(init, p);
      assert init + [last] == s;
      if p(last) then
        assert (r + [last])[..|r|] == r;
        r + [last]
      else
        SubseqSnoc(r, init, last);
        r
  }

  /** Filtering one more element at the end. */
  lemma FilterSnoc<T>(s: seq<T>, x: T, p: T -> bool)
    ensures Filter(s + [x], p) == Filter(s, p) + (if p(x) then [x] else [])
  {
    assert (s + [x])[..|s|] == s;
  }

  /**
   * The `forEach` loop that pushes, in order, the elements passing a test:
   * the shape of the detection loops of the analysis.
   */
  method SelectWhere<T>(s: seq<T>, p: T -> bool) returns (r: seq<T>)
    ensures r == Filter(s, p)
  {
    r := [];
    for i := 0 to |s|
      invariant r == Filter(s[..i], p)
    {
      FilterSnoc(s[..i], s[i], p);
      assert s[..i + 1] == s[..i] + [s[i]];
      if p(s[i]) {
        r := r + [s[i]];
      }
    }
    assert s[..|s|] == s;
  }

  /** The index of the first occurrence of `x` in `s`. */
  function FirstIndex<T(==)>(s: seq<T>, x: T): (k: nat)
    requires x in s
    ensures k < |s| && s[k] == x && x !in s[..k]
  {
    if s[0] == x then 0 else 1 + FirstIndex(s[1..], x)
  }

  /** Appending elements leaves existing first occurrences where they were. */
  lemma {:induction false} FirstIndexSnoc<T>(s: seq<T>, x: T, y: T)
    requires y in s
    ensures FirstIndex(s + [x], y) == FirstIndex(s, y)
  {
    if s[0] != y {
      assert (s + [x])[1..] == s[1..] + [x];
      FirstIndexSnoc(s[1..], x, y);
    }
  }

  /** An element new to `s` first occurs where it is appended. */
  lemma {:induction false} FirstIndexAppendNew<T>(s: seq<T>, x: T)
    requires x !in s
    ensures FirstIndex(s + [x], x) == |s|
  {
    if s != [] {
      assert (s + [x])[1..] == s[1..] + [x];
      FirstIndexAppendNew(s[1..], x);
    }
  }

  /** `x` and `y` both occur in `words`, and `x` first occurs earlier. */
  predicate Before<T(==)>(words: seq<T>, x: T, y: T) {
    x in words && y in words && FirstIndex(words, x) < FirstIndex(words, y)
  }

  /** Every element of `r` occurs in `words`, and `r` lists them by first occurrence. */
  predicate FirstOrder<T(==)>(words: seq<T>, r: seq<T>) {
    forall i, j :: 0 <= i < j < |r| ==> Before(words, r[i], r[j])
  }

  /**
   * A prefix of a list in first-occurrence order keeps the order, has no
   * repeats, and every element it leaves out occurs after each it keeps.
   */
  lemma FirstOrderPrefix<T>(words: seq<T>, r: seq<T>, n: nat)
    requires FirstOrder(words, r) && n <= |r|
    ensures FirstOrder(words, r[..n]) && Distinct(r[..n])
    ensures forall x | x in r && x !in r[..n] :: forall i | 0 <= i < n :: Before(words, r[i], x)
  {
    var p := r[..n];
    forall i, j | 0 <= i < j < |p| ensures Before(words, p[i], p[j]) && p[i] != p[j] {
      assert Before(words, r[i], r[j]);
    }
    forall x | x in r && x !in p ensures forall i | 0 <= i < n :: Before(words, r[i], x) {
      var k :| 0 <= k < |r| && r[k] == x;
      forall i | 0 <= i < n ensures Before(words, r[i], x) {
        assert Before(words, r[i], r[k]);
      }
    }
  }

  /** Dropping the head keeps first-occurrence order. */
  lemma FirstOrderTail<T>(words: seq<T>, r: seq<T>)
    requires FirstOrder(words, r) && r != []
    ensures FirstOrder(words, r[1..])
  {
    var t := r[1..];
    forall i, j | 0 <= i < j < |t| ensures Before(words, t[i], t[j]) {
      assert t[i] == r[i + 1] && t[j] == r[j + 1];
    }
  }

  /** The head of a list in first-occurrence order occurs before everything after it. */
  lemma FirstBeforeRest<T>(words: seq<T>, r: seq<T>, y: T)
    requires FirstOrder(words, r) && r != [] && y in r[1..]
    ensures Before(words, r[0], y)
  {
    var k :| 0 <= k < |r[1..]| && r[1..][k] == y;
    assert r[k + 1] == y;
  }

  /** An element occurring before every element of a list in first-occurrence order can head it. */
  lemma FirstOrderCons<T>(words: seq<T>, x: T, r: seq<T>)
    requires FirstOrder(words, r)
    requires forall y | y in r :: Before(words, x, y)
    ensures FirstOrder(words, [x] + r)
  {
    var xr := [x] + r;
    forall i, j | 0 <= i < j < |xr| ensures Before(words, xr[i], xr[j]) {
      assert xr[j] == r[j - 1];
      if i > 0 {
        assert xr[i] == r[i - 1];
      }
    }
  }

  /** A filter of a sequence in first-occurrence order is in first-occurrence order. */
  lemma {:induction false} FilterFirstOrder<T>(words: seq<T>, s: seq<T>, p: T -> bool)
    requires FirstOrder(words, s)
    ensures FirstOrder(words, Filter(s, p))
    decreases |s|
  {
    if s != [] {
      var init := s[..|s| - 1];
      var last := s[|s| - 1];
      FilterFirstOrder(words, init, p);
      var r := Filter(init, p);
      if p(last) {
        forall i | 0 <= i < |r| ensures Before(words, r[i], last) {
          assert r[i] in init;
          var k :| 0 <= k < |init| && init[k] == r[i];
          assert s[k] == r[i];
        }
        var rl := r + [last];
        forall i, j | 0 <= i < j < |rl| ensures Before(words, rl[i], rl[j]) {
          assert rl[i] == r[i];
          if j < |r| {
            assert rl[j] == r[j];
          }
        }
      }
    }
  }

  /** `[...new Set(s)]`: the elements of `s` without repetition, by first occurrence. */
  function Dedup<T(==)>(s: seq<T>): seq<T> {
    if s == [] then []
    else
      var d := Dedup(s[..|s| - 1]);
      if s[|s| - 1] in d then d else d + [s[|s| - 1]]
  }

  /**
   * What `new Set` promises when it is spread back into a list: the same
   * elements, each once, in the order they first occur.
   */
  lemma {:induction false} DedupSpec<T>(s: seq<T>)
    ensures forall x | x in Dedup(s) :: x in s
    ensures forall x | x in s :: x in Dedup(s)
    ensures Distinct(Dedup(s))
    ensures FirstOrder(s, Dedup(s))
  {
    if s != [] {
      var init := s[..|s| - 1];
      var last := s[|s| - 1];
      DedupSpec(init);
      var d := Dedup(init);
      assert init + [last] == s;
      forall y | y in init { FirstIndexSnoc(init, last, y); }
      if last !in d {
        FirstIndexAppendNew(init, last);
        var dl := d + [last];
        forall i, j | 0 <= i < j < |dl| ensures Before(s, dl[i], dl[j]) {
          assert dl[i] == d[i];
          if j < |d| {
            assert dl[j] == d[j];
          }
        }
      }
    }
  }

  /** Deduplicating one more element at the end. */
  lemma {:induction false} DedupSnoc<T>(s: seq<T>, x: T)
    ensures Dedup(s + [x]) == if x in Dedup(s) then Dedup(s) else Dedup(s) + [x]
  {
    assert (s + [x])[..|s|] == s;
  }

  /** `xs.slice(0, n)`: the first `n` elements, or all of them when there are fewer. */
  function Take<T>(xs: seq<T>, n: nat): (r: seq<T>)
    ensures |r| == if |xs| < n then |xs| else n
    ensures r == xs[..|r|]
  {
    if |xs| <= n then xs else xs[..n]
  }
}
