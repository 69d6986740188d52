/**
 Small building blocks shared by the sampler and the plotter models:
 an optional value, strictly increasing integer sequences, string
 concatenation of a list of lines, and the minimum and maximum of a
 non-empty series.
 */
module Basics {

  /** A value that may be absent (Python's `None`). */
  datatype Option<+T> = None | Some(value: T) {

    /** The value if present, otherwise `default` (Python's `d.get(k, default)`). */
    function GetOr(default: T): T {
      match this
      case Some(v) => v
      case None => default
    }
  }

  /** Every element is smaller than every later element. */
  ghost predicate StrictlyIncreasing(s: seq<int>) {
    forall i, j :: 0 <= i < j < |s| ==> s[i] < s[j]
  }

  /** A strictly increasing sequence minus its head is strictly increasing
      and holds exactly the elements above the head. */
  lemma TailOfIncreasing(s: seq<int>)
    requires |s| > 0 && StrictlyIncreasing(s)
    ensures StrictlyIncreasing(s[1..])
    ensures forall v :: v in s[1..] <==> v in s && s[0] < v
  {
    forall v | v in s && s[0] < v
      ensures v in s[1..]
    {
      var i :| 0 <= i < |s| && s[i] == v;
      assert i != 0;
      assert s[1..][i - 1] == v;
    }
  }

  /** Two strictly increasing sequences with the same elements are equal:
      a sorted, duplicate-free list is determined by its set of elements. */
  lemma {:induction false} StrictlyIncreasingUnique(a: seq<int>, b: seq<int>)
    requires StrictlyIncreasing(a) && StrictlyIncreasing(b)
    requires forall v :: v in a <==> v in b
    ensures a == b
  {
    assert |a| > 0 ==> a[0] in a;
    assert |b| > 0 ==> b[0] in b;
    if |a| > 0 && |b| > 0 {
      assert a[0] in b && b[0] in a;
      assert a[0] == b[0];
      TailOfIncreasing(a);
      TailOfIncreasing(b);
      StrictlyIncreasingUnique(a[1..], b[1..]);
      assert a == [a[0]] + a[1..];
      assert b == [b[0]] + b[1..];
    }
  }

  /** The last element of a non-empty strictly increasing sequence is its maximum. */
  lemma LastIsMax(s: seq<int>)
    requires |s| > 0 && StrictlyIncreasing(s)
    ensures forall v :: v in s ==> v <= s[|s| - 1]
  {
  }

  /** `''.join(parts)`: the parts written one after another. */
  function Join(parts: seq<string>): string {
    if |parts| == 0 then "" else parts[0] + Join(parts[1..])
  }

  /** Joining distributes over concatenation of the part lists. */
  lemma {:induction false} JoinAppend(a: seq<string>, b: seq<string>)
    ensures Join(a + b) == Join(a) + Join(b)
  {
    if |a| == 0 {
      assert a + b == b;
    } else {
      assert (a + b)[1..] == a[1..] + b;
      JoinAppend(a[1..], b);
    }
  }

  /** The text of the first `n` parts is a prefix of the text of all parts. */
  lemma JoinPrefix(parts: seq<string>, n: nat)
    requires n <= |parts|
    ensures Join(parts[..n]) <= Join(parts)
    ensures |Join(parts[..n])| <= |Join(parts)|
  {
    assert parts == parts[..n] + parts[n..];
    JoinAppend(parts[..n], parts[n..]);
  }

  /** Python's `min` of a non-empty series. */
  function Min(s: seq<real>): (m: real)
    requires |s| > 0
    ensures m in s
    ensures forall x :: x in s ==> m <= x
  {
    if |s| == 1 then s[0]
    else
      var rest := Min(s[1..]);
      assert forall x :: x in s ==> x == s[0] || x in s[1..];
      if s[0] <= rest then s[0] else rest
  }

  /** Python's `max` of a non-empty series. */
  function Max(s: seq<real>): (m: real)
    requires |s| > 0
    ensures m in s
    ensures forall x :: x in s ==> x <= m
  {
    if |s| == 1 then s[0]
    else
      var rest := Max(s[1..]);
      assert forall x :: x in s ==> x == s[0] || x in s[1..];
      if rest <= s[0] then s[0] else rest
  }
}
