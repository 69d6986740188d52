/**
 The default test points of the sampler: the prefix lengths, in lines,
 at which the input file is measured when the caller gives no explicit
 list. The sampler tries 1%, 2%, ..., 100% of the file, truncates each
 product to an integer, raises zero to one, and keeps the sorted set of
 the results.
 */
module LineCounts {
  import opened Basics

  /** Number of percentage steps; fixed in the sampler, not configurable. */
  const Splits: nat := 100

  /** `max(1, int(total * i / 100))`, the candidate for step `i`: at least
      one, and never more than a non-empty file's length. */
  function Candidate(total: nat, i: int): (c: int)
    requires 1 <= i <= Splits
    ensures 1 <= c
    ensures total >= 1 ==> c <= total
  {
    var q := total * i / Splits;
    ProductBounds(total, i);
    if q < 1 then 1 else q
  }

  /** For a step in 1..100 the truncated product lies in 0..total. */
  lemma ProductBounds(total: nat, i: int)
    requires 1 <= i <= Splits
    ensures 0 <= total * i / Splits <= total
  {
    MulMonotone(total, i, Splits);
  }

  /** The candidates for steps 1..100, in step order (duplicates kept): a
      value occurs exactly when some step produces it. */
  function Candidates(total: nat): (cs: seq<int>)
    ensures |cs| == Splits
    ensures forall v :: v in cs <==> exists i :: 1 <= i <= Splits && v == Candidate(total, i)
  {
    var cs := seq(Splits, k requires 0 <= k < Splits => Candidate(total, k + 1));
    assert forall i :: 1 <= i <= Splits ==> cs[i - 1] == Candidate(total, i);
    cs
  }

  /** Adds `x` to a sorted duplicate-free list, keeping it sorted and duplicate-free. */
  function Insert(x: int, s: seq<int>): (r: seq<int>)
    requires StrictlyIncreasing(s)
    ensures StrictlyIncreasing(r)
    ensures forall v :: v in r <==> v == x || v in s
    ensures |r| <= |s| + 1
  {
    if |s| == 0 then [x]
    else if x < s[0] then [x] + s
    else if x == s[0] then s
    else
      TailOfIncreasing(s);
      var rest := Insert(x, s[1..]);
      assert forall j :: 0 <= j < |rest| ==> s[0] < rest[j] by {
        forall j | 0 <= j < |rest|
          ensures s[0] < rest[j]
        {
          assert rest[j] in rest;
        }
      }
      [s[0]] + rest
  }

  /** `sorted(set(xs))`: the distinct elements of `xs` in ascending order. */
  function SortedDistinct(xs: seq<int>): (r: seq<int>)
    ensures StrictlyIncreasing(r)
    ensures |r| <= |xs|
    ensures |xs| > 0 ==> |r| > 0
  {
    if |xs| == 0 then []
    else Insert(xs[0], SortedDistinct(xs[1..]))
  }

  /** `sorted(set(xs))` holds exactly the values that occur in `xs`. */
  lemma {:induction false} SortedDistinctMembers(xs: seq<int>)
    ensures forall v :: v in SortedDistinct(xs) <==> v in xs
  {
    if |xs| > 0 {
      SortedDistinctMembers(xs[1..]);
      assert forall v :: v in xs <==> v == xs[0] || v in xs[1..];
    }
  }

  /** The default line counts for a file of `total` lines: strictly
      increasing, between one and a hundred of them, each at least one and,
      for a non-empty file, at most the file length. */
  function DefaultLineCounts(total: nat): (counts: seq<int>)
    ensures StrictlyIncreasing(counts)
    ensures 1 <= |counts| <= Splits
    ensures forall k :: 0 <= k < |counts| ==> 1 <= counts[k]
    ensures total >= 1 ==> forall k :: 0 <= k < |counts| ==> counts[k] <= total
  {
    var cs := Candidates(total);
    var counts := SortedDistinct(cs);
    SortedDistinctMembers(cs);
    assert forall k :: 0 <= k < |counts| ==> counts[k] in cs;
    counts
  }

  /** De-duplication loses no candidate and adds none. */
  lemma DefaultLineCountsMembers(total: nat)
    ensures forall v :: v in DefaultLineCounts(total) <==> v in Candidates(total)
  {
    SortedDistinctMembers(Candidates(total));
  }

  /** Step 100 is the whole file, so for a non-empty file the last default
      count is the file length. */
  lemma DefaultLineCountsLast(total: nat)
    requires total >= 1
    ensures DefaultLineCounts(total)[|DefaultLineCounts(total)| - 1] == total
  {
    var counts := DefaultLineCounts(total);
    assert total * Splits / Splits == total;
    assert Candidate(total, Splits) == total;
    DefaultLineCountsMembers(total);
    assert total in counts;
    LastIsMax(counts);
    var last := counts[|counts| - 1];
    assert total <= last;
  }

  /** With at least 100 lines, a later step truncates to a strictly larger count. */
  lemma LaterStepLarger(total: nat, i: int, j: int)
    requires total >= Splits && 1 <= i < j <= Splits
    ensures 1 <= Candidate(total, i) < Candidate(total, j)
  {
    var a, b := total * i, total * j;
    assert b == a + total * (j - i);
    MulMonotone(total, 1, j - i);
    MulMonotone(total, 1, i);
    DivStrictlyGrows(a, b);
  }

  /** Multiplying by a non-negative factor preserves order. */
  lemma MulMonotone(n: nat, x: int, y: int)
    requires x <= y
    ensures n * x <= n * y
  {
  }

  /** Two numerators at least 100 apart give different quotients by 100. */
  lemma DivStrictlyGrows(a: int, b: int)
    requires 0 <= a && a + Splits <= b
    ensures a / Splits < b / Splits
  {
  }

  /** Once the file has at least 100 lines the 100 candidates are all
      distinct, so no step is lost to de-duplication. */
  lemma DefaultLineCountsLongFile(total: nat)
    requires total >= Splits
    ensures DefaultLineCounts(total) == Candidates(total)
    ensures |DefaultLineCounts(total)| == Splits
  {
    var cs := Candidates(total);
    forall i, j | 0 <= i < j < |cs|
      ensures cs[i] < cs[j]
    {
      LaterStepLarger(total, i + 1, j + 1);
    }
    SortedDistinctMembers(cs);
    StrictlyIncreasingUnique(DefaultLineCounts(total), cs);
  }

  /** The default counts are the given sorted list as soon as that list
      holds exactly the candidate values. */
  lemma DefaultLineCountsAre(total: nat, expected: seq<int>)
    requires StrictlyIncreasing(expected)
    requires forall i :: 1 <= i <= Splits ==> Candidate(total, i) in expected
    requires forall k :: 0 <= k < |expected| ==> exists i :: 1 <= i <= Splits && expected[k] == Candidate(total, i)
    ensures DefaultLineCounts(total) == expected
  {
    var counts := DefaultLineCounts(total);
    DefaultLineCountsMembers(total);
    forall v | v in expected
      ensures v in counts
    {
      var k :| 0 <= k < |expected| && expected[k] == v;
      var i :| 1 <= i <= Splits && expected[k] == Candidate(total, i);
    }
    StrictlyIncreasingUnique(counts, expected);
  }

  /** A five-line file: the 100 steps collapse to the five counts 1..5. */
  lemma DefaultLineCountsFiveLines()
    ensures DefaultLineCounts(5) == [1, 2, 3, 4, 5]
  {
    var expected := [1, 2, 3, 4, 5];
    forall i | 1 <= i <= Splits
      ensures Candidate(5, i) in expected
    {
      ProductBounds(5, i);
    }
    assert Candidate(5, 20) == 1 && Candidate(5, 40) == 2 && Candidate(5, 60) == 3;
    assert Candidate(5, 80) == 4 && Candidate(5, 100) == 5;
    DefaultLineCountsAre(5, expected);
  }

  /** An empty file is not rejected: every step gives `max(1, 0)`, so the
      single default count is 1. */
  lemma DefaultLineCountsEmptyFile()
    ensures DefaultLineCounts(0) == [1]
  {
    forall i | 1 <= i <= Splits
      ensures Candidate(0, i) in [1]
    {
    }
    assert Candidate(0, 1) == 1;
    DefaultLineCountsAre(0, [1]);
  }
}
