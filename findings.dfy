/**
 * What the eight components share: the three-valued severity/level of a finding,
 * the colour bands the result views paint, a selected file, and `Array.filter`
 * by a key (`xs.filter(x => key(x) === k)`) with the counts derived from it.
 */
module Findings {

  /** `'high' | 'medium' | 'low'`: a correction's severity, a clause's risk level, a band. */
  datatype Level = High | Medium | Low

  /** The colour family a class name encodes (green, yellow, red, or the gray fallback). */
  datatype Tone = Green | Yellow | Red | Gray

  /** A browser `File`; only its name and size are ever read, never its contents. */
  datatype File = File(name: string, size: nat)

  /**
   * The score colour rule `>= 80` green, `>= 60` yellow, red below, used for the document
   * review score, its progress bar, and every due-diligence score.
   */
  function ScoreTone(score: int): (t: Tone)
    ensures t == Green <==> 80 <= score
    ensures t == Yellow <==> 60 <= score < 80
    ensures t == Red <==> score < 60
  {
    if score >= 80 then Green else if score >= 60 then Yellow else Red
  }

  function ToneRank(t: Tone): nat {
    match t
    case Red => 0
    case Yellow => 1
    case Green => 2
    case Gray => 0
  }

  /** A higher score never gets a worse colour. */
  lemma ScoreToneMonotone(a: int, b: int)
    requires a <= b
    ensures ToneRank(ScoreTone(a)) <= ToneRank(ScoreTone(b))
  {
  }

  /** `xs.filter(x => key(x) === k)` */
  function Select<T, K(==)>(xs: seq<T>, key: T -> K, k: K): (r: seq<T>)
    ensures |r| <= |xs|
    ensures forall i | 0 <= i < |r| :: key(r[i]) == k
  {
    if xs == [] then [] else (if key(xs[0]) == k then [xs[0]] else []) + Select(xs[1..], key, k)
  }

  /** `a` is `b` with some elements removed and the rest kept in order. */
  predicate IsSubsequence<T(==)>(a: seq<T>, b: seq<T>)
    decreases |b|
  {
    a == [] || (b != [] && ((a[0] == b[0] && IsSubsequence(a[1..], b[1..])) || IsSubsequence(a, b[1..])))
  }

  /** Filtering keeps the surviving elements in their original order. */
  lemma {:induction false} SelectIsSubsequence<T, K>(xs: seq<T>, key: T -> K, k: K)
    ensures IsSubsequence(Select(xs, key, k), xs)
  {
    if xs != [] {
      SelectIsSubsequence(xs[1..], key, k);
      var r := Select(xs, key, k);
      if key(xs[0]) == k {
        assert r[0] == xs[0] && r[1..] == Select(xs[1..], key, k);
      } else {
        assert r == Select(xs[1..], key, k);
      }
    }
  }

  /** Filtering keeps every occurrence of an element with key `k` and none of the others. */
  lemma {:induction false} SelectMultiplicity<T, K>(xs: seq<T>, key: T -> K, k: K, x: T)
    ensures multiset(Select(xs, key, k))[x] == if key(x) == k then multiset(xs)[x] else 0
  {
    if xs != [] {
      SelectMultiplicity(xs[1..], key, k, x);
      assert xs == [xs[0]] + xs[1..];
      assert multiset(xs) == multiset([xs[0]]) + multiset(xs[1..]);
    }
  }

  /** Filtering a concatenation filters each part. */
  lemma {:induction false} SelectAppend<T, K>(xs: seq<T>, ys: seq<T>, key: T -> K, k: K)
    ensures Select(xs + ys, key, k) == Select(xs, key, k) + Select(ys, key, k)
  {
    if xs != [] {
      SelectAppend(xs[1..], ys, key, k);
      assert (xs + ys)[1..] == xs[1..] + ys;
    } else {
      assert xs + ys == ys;
    }
  }

  /** When every element already has key `k`, filtering returns the whole list. */
  lemma {:induction false} SelectAllMatching<T, K>(xs: seq<T>, key: T -> K, k: K)
    requires forall i | 0 <= i < |xs| :: key(xs[i]) == k
    ensures Select(xs, key, k) == xs
  {
    if xs != [] {
      SelectAllMatching(xs[1..], key, k);
    }
  }

  /** With three levels, the high, medium and low counts add up to the length of the list. */
  lemma {:induction false} LevelCountsPartition<T>(xs: seq<T>, level: T -> Level)
    ensures |Select(xs, level, High)| + |Select(xs, level, Medium)| + |Select(xs, level, Low)| == |xs|
  {
    if xs != [] {
      LevelCountsPartition(xs[1..], level);
      match level(xs[0])
      case High =>
        assert Select(xs, level, High) == [xs[0]] + Select(xs[1..], level, High);
      case Medium =>
        assert Select(xs, level, Medium) == [xs[0]] + Select(xs[1..], level, Medium);
      case Low =>
        assert Select(xs, level, Low) == [xs[0]] + Select(xs[1..], level, Low);
    }
  }
}
