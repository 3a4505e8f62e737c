/**
 The weka.core instance record extended with a full class distribution: the
 per-class probability array of SoftClassifiedFullInstance, its construction
 from a hard-labelled instance, its accessors and its shallow copy.

 The superclass Instance and the dataset it points to are foreign code. They
 are stood in for by two small classes that hold only what this record reads:
 the attribute-value array, the weight and the dataset reference, and of the
 dataset only its number of classes.
 */
module WekaCore {
  import opened Distribution

  /** The dataset an instance belongs to; only its number of class values is used. */
  class Dataset {
    const numClasses: nat

    constructor (numClasses: nat)
      ensures this.numClasses == numClasses
    {
      this.numClasses := numClasses;
    }
  }

  /** The hard-labelled instance a soft-classified one is built from. */
  class Instance {
    var attValues: array<real>
    var weight: real
    var dataset: Dataset?

    constructor (attValues: array<real>, weight: real, dataset: Dataset?)
      ensures this.attValues == attValues && this.weight == weight && this.dataset == dataset
    {
      this.attValues, this.weight, this.dataset := attValues, weight, dataset;
    }
  }

  /** What setClassDistribution does with a new distribution array. */
  datatype Outcome = Accepted | LengthMismatch(expected: nat, actual: nat)

  class SoftClassifiedFullInstance {
    var attValues: array?<real>
    var weight: real
    var dataset: Dataset?
    /** The probability of each class for this instance. */
    var dist: array?<real>

    /**
     The distribution is set up: there is a dataset and a distribution array with
     one entry per class. Every constructor from an Instance establishes this and
     every operation keeps it; only the staging object of Copy lacks it.
     */
    ghost predicate Valid()
      reads this
    {
      dataset != null && dist != null && dist.Length == dataset.numClasses
    }

    /** The class probabilities as a sequence. */
    ghost function Probabilities(): seq<real>
      reads this, dist
      requires dist != null
    {
      dist[..]
    }

    /**
     Builds a soft-classified instance from `instance`, sharing its attribute
     values and dataset and taking its weight. `classLabel` is the instance's class value, None
     when its class is missing. The distribution is a new zero-filled array with
     one entry per class that gets 1 at the known class, or 1/n everywhere when
     the class is missing.
     */
    constructor FromInstance(instance: Instance, classLabel: Option<nat>)
      requires instance.dataset != null
      requires classLabel.Some? ==> classLabel.value < instance.dataset.numClasses
      ensures Valid() && fresh(dist)
      ensures attValues == instance.attValues && weight == instance.weight && dataset == instance.dataset
      ensures Probabilities() == InitialDistribution(dataset.numClasses, classLabel)
      ensures 0 < dataset.numClasses ==> IsDistribution(Probabilities())
    {
      attValues := instance.attValues;
      weight := instance.weight;
      dataset := instance.dataset;
      var n := instance.dataset.numClasses;
      dist := new real[n](_ => 0.0);
      new;
      if classLabel.None? {
        var i := 0;
        while i < n
          modifies dist
          invariant 0 <= i <= n
          invariant forall j :: 0 <= j < i ==> dist[j] == 1.0 / n as real
        {
          dist[i] := 1.0 / n as real;
          i := i + 1;
        }
        assert dist[..] == Uniform(n);
      } else {
        dist[classLabel.value] := 1.0;
        assert dist[..] == OneHot(n, classLabel.value);
      }
      if 0 < n {
        InitialDistributionIsDistribution(n, classLabel);
      }
    }

    /** The empty record Copy fills in: no attribute values, dataset or distribution. */
    constructor Empty()
      ensures attValues == null && weight == 0.0 && dataset == null && dist == null
    {
      attValues, weight, dataset, dist := null, 0.0, null, null;
    }

    /** The probability that this instance is of class k; no bounds check beyond the array's. */
    method GetClassProbability(k: int) returns (p: real)
      requires dist != null && 0 <= k < dist.Length
      ensures p == dist[k]
    {
      p := dist[k];
    }

    /**
     Sets the probability of class k to p and leaves every other class alone;
     the other entries are not renormalised.
     */
    method SetClassProbability(k: int, p: real)
      requires dist != null && 0 <= k < dist.Length
      modifies dist
      ensures Probabilities() == old(Probabilities())[k := p]
      ensures old(IsDistribution(Probabilities())) ==>
                (IsDistribution(Probabilities()) <==> p == old(dist[k]))
    {
      ghost var before := dist[..];
      if IsDistribution(before) {
        SetProbabilityKeepsDistributionIff(before, k, p);
      }
      dist[k] := p;
    }

    /** The distribution array itself, not a copy: writes to it are writes to this instance. */
    method GetClassDistribution() returns (d: array?<real>)
      ensures d == dist
    {
      d := dist;
    }

    /**
     Takes `d` as the new distribution, by reference, when it has one entry per
     class of the dataset; otherwise reports the mismatch and keeps the old one.
     */
    method SetClassDistribution(d: array<real>) returns (outcome: Outcome)
      requires dataset != null
      modifies this`dist
      ensures outcome == if d.Length == dataset.numClasses then Accepted
                         else LengthMismatch(dataset.numClasses, d.Length)
      ensures outcome.Accepted? ==> dist == d && Valid()
      ensures outcome.LengthMismatch? ==> dist == old(dist)
      ensures old(Valid()) ==> Valid()
    {
      if d.Length != dataset.numClasses {
        return LengthMismatch(dataset.numClasses, d.Length);
      }
      dist := d;
      outcome := Accepted;
    }

    /**
     A shallow copy: a new object whose attribute values, weight, dataset and
     distribution array are those of this one, the arrays shared and not copied.
     */
    method Copy() returns (result: SoftClassifiedFullInstance)
      ensures fresh(result) && result != this
      ensures result.attValues == attValues && result.weight == weight
      ensures result.dataset == dataset && result.dist == dist
      ensures result.Valid() == Valid()
    {
      result := new SoftClassifiedFullInstance.Empty();
      result.attValues := attValues;
      result.weight := weight;
      result.dataset := dataset;
      result.dist := dist;
    }
  }

  /**
   After setClassDistribution(d), the instance and the caller hold the same
   array: a write through the caller's handle is read back through the instance.
   */
  method WriteThroughAcceptedArray(x: SoftClassifiedFullInstance, d: array<real>, k: int, p: real)
    returns (q: real)
    requires x.dataset != null && d.Length == x.dataset.numClasses && 0 <= k < d.Length
    modifies x, d
    ensures x.dist == d && x.Valid()
    ensures q == p
  {
    var outcome := x.SetClassDistribution(d);
    d[k] := p;
    q := x.GetClassProbability(k);
  }

  /**
   A copy shares the distribution array with its original: setting a
   probability on the copy is seen through the original, until the copy is
   given an array of its own, after which the original no longer follows it.
   */
  method WriteThroughCopy(x: SoftClassifiedFullInstance, k: int, p: real, replacement: array<real>)
    returns (copy: SoftClassifiedFullInstance, q: real)
    requires x.Valid() && 0 <= k < x.dist.Length
    requires replacement.Length == x.dist.Length && replacement != x.dist
    modifies x.dist
    ensures fresh(copy) && copy != x
    ensures q == p && x.dist[k] == p
    ensures copy.dist == replacement && x.dist == old(x.dist)
  {
    copy := x.Copy();
    copy.SetClassProbability(k, p);
    q := x.GetClassProbability(k);
    var outcome := copy.SetClassDistribution(replacement);
  }
}
