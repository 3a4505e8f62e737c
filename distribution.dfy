/**
 Class distributions as values: a sequence of reals with one entry per class
 value. This module gives the two distributions a soft-classified instance can
 start from (one-hot on a known class, uniform when the class is missing), the
 sum of the entries, and the facts about sums that the instance operations
 keep or break.

 Probabilities are reals, so 1/n and the sum of a uniform distribution are
 exact here; the Java code works on IEEE doubles.
 */
module Distribution {

  datatype Option<+T> = None | Some(value: T)

  /** Sum of all entries, left to right. */
  function Sum(s: seq<real>): (total: real)
  {
    if s == [] then 0.0 else s[0] + Sum(s[1..])
  }

  /** Every entry is a probability and together they sum to one. */
  ghost predicate IsDistribution(s: seq<real>)
  {
    (forall i :: 0 <= i < |s| ==> 0.0 <= s[i]) && Sum(s) == 1.0
  }

  /** n entries, each 1/n: the distribution of an instance whose class is missing. */
  function Uniform(n: nat): (r: seq<real>)
    ensures |r| == n && forall i :: 0 <= i < n ==> r[i] == 1.0 / n as real
  {
    seq(n, i requires 0 <= i < n => 1.0 / n as real)
  }

  /** n entries, 1 at class c and 0 elsewhere: the distribution of an instance of class c. */
  function OneHot(n: nat, c: nat): (r: seq<real>)
    requires c < n
    ensures |r| == n && r[c] == 1.0
    ensures forall i :: 0 <= i < n && i != c ==> r[i] == 0.0
  {
    seq(n, i => if i == c then 1.0 else 0.0)
  }

  /**
   The distribution a soft-classified instance is built with from a hard-labelled
   one: `classLabel` is the instance's class value, None when the class is missing.
   */
  function InitialDistribution(n: nat, classLabel: Option<nat>): (r: seq<real>)
    requires classLabel.Some? ==> classLabel.value < n
    ensures |r| == n
  {
    match classLabel
    case None => Uniform(n)
    case Some(c) => OneHot(n, c)
  }

  /** A sequence whose entries all equal v sums to |s| * v. */
  lemma {:induction false} SumOfConstant(s: seq<real>, v: real)
    requires forall i :: 0 <= i < |s| ==> s[i] == v
    ensures Sum(s) == |s| as real * v
  {
    if s != [] {
      SumOfConstant(s[1..], v);
    }
  }

  /** Overwriting entry k with p changes the sum by exactly p - s[k]. */
  lemma {:induction false} SumAfterUpdate(s: seq<real>, k: nat, p: real)
    requires k < |s|
    ensures Sum(s[k := p]) == Sum(s) - s[k] + p
  {
    if k == 0 {
      assert s[k := p][1..] == s[1..];
    } else {
      assert s[k := p][1..] == s[1..][k - 1 := p];
      SumAfterUpdate(s[1..], k - 1, p);
    }
  }

  /** A sequence that is zero everywhere except at c sums to its entry at c. */
  lemma SumOfSingleSupport(s: seq<real>, c: nat)
    requires c < |s|
    requires forall i :: 0 <= i < |s| && i != c ==> s[i] == 0.0
    ensures Sum(s) == s[c]
  {
    var zeros := s[c := 0.0];
    SumOfConstant(zeros, 0.0);
    SumAfterUpdate(zeros, c, s[c]);
    assert zeros[c := s[c]] == s;
  }

  /** The uniform distribution over n > 0 classes is a probability distribution. */
  lemma UniformIsDistribution(n: nat)
    requires 0 < n
    ensures IsDistribution(Uniform(n))
  {
    var u := Uniform(n);
    SumOfConstant(u, 1.0 / n as real);
    assert n as real * (1.0 / n as real) == 1.0;
  }

  /** The one-hot distribution is a probability distribution. */
  lemma OneHotIsDistribution(n: nat, c: nat)
    requires c < n
    ensures IsDistribution(OneHot(n, c))
  {
    SumOfSingleSupport(OneHot(n, c), c);
  }

  /**
   Both starting distributions are probability distributions, provided there
   is at least one class (with a known class there always is).
   */
  lemma InitialDistributionIsDistribution(n: nat, classLabel: Option<nat>)
    requires classLabel.Some? ==> classLabel.value < n
    requires classLabel.None? ==> 0 < n
    ensures IsDistribution(InitialDistribution(n, classLabel))
  {
    match classLabel
    case None => UniformIsDistribution(n);
    case Some(c) => OneHotIsDistribution(n, c);
  }

  /**
   Setting one probability does not renormalise: starting from a distribution,
   the result is a distribution again exactly when the entry keeps its value.
   */
  lemma SetProbabilityKeepsDistributionIff(s: seq<real>, k: nat, p: real)
    requires IsDistribution(s)
    requires k < |s|
    ensures IsDistribution(s[k := p]) <==> p == s[k]
  {
    SumAfterUpdate(s, k, p);
    if p == s[k] {
      assert s[k := p] == s;
    }
  }

  /** Three classes, known class 1: the distribution is [0, 1, 0]. */
  lemma KnownClassExample()
    ensures InitialDistribution(3, Some(1)) == [0.0, 1.0, 0.0]
  {
    assert OneHot(3, 1)[0] == 0.0;
  }

  /** Two classes, class missing: the distribution is [1/2, 1/2]. */
  lemma MissingClassExample()
    ensures InitialDistribution(2, None) == [0.5, 0.5]
  {
    assert Uniform(2)[0] == 0.5;
  }
}
