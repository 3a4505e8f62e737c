# SoftClassifiedFullInstance in Dafny

A model of `weka.core.SoftClassifiedFullInstance`. This is a weka instance (attribute values, a
weight and a dataset reference) that also carries a full probability distribution over the class
values. EM-style soft classifiers use it.

- `distribution.dfy` (module `Distribution`) treats class distributions as values. It defines the
  sum of the entries and what a probability distribution is. It also defines the two starting
  distributions: one-hot on a known class, and uniform when the class is missing. Lemmas prove that
  both starting distributions are probability distributions. Another lemma proves that overwriting
  one entry keeps a distribution a distribution only when the entry's value does not change.
- `soft_classified_full_instance.dfy` (module `WekaCore`) holds the class itself. It has the
  fields `attValues`, `weight`, `dataset` and the distribution array `dist`. It has two
  constructors: `FromInstance`, from a hard-labelled instance, and `Empty`, the staging object of
  `Copy`. `SetClassProbability` (`modifies dist`) and `SetClassDistribution`
  (``modifies this`dist``) are the only members that change state. `GetClassProbability` and
  `GetClassDistribution` only read. Reference identities state the sharing of arrays:
  `FromInstance` keeps the instance's attribute-value array and dataset, `GetClassDistribution`
  returns the stored array, an accepted `SetClassDistribution` stores the caller's array, and
  `Copy` keeps all of this record's references. Weights are doubles and are equal by value.
  Two client methods show what that sharing means to a caller:
  - a write through an array passed to `SetClassDistribution` is read back through the instance;
  - a probability set on a copy is read back through the original, until the copy takes an array of
    its own.

The superclass `Instance` and its dataset are foreign code, so two small stand-in classes replace
them. The dataset keeps only its number of classes. The instance keeps only the three fields the
record shares. Whether the source instance's class is missing, and its class value otherwise, are
passed to the constructor as `classLabel: Option<nat>`.

## Model

| member | source | states |
|---|---|---|
| Distribution.SumOfConstant | trunk/MachineLearning/src/weka/core/SoftClassifiedFullInstance.java:65-67 | n entries that all equal v sum to n * v; this is the sum of the array the missing-class loop fills |
| Distribution.UniformIsDistribution | trunk/MachineLearning/src/weka/core/SoftClassifiedFullInstance.java:63-67 | for n > 0 classes, the all-1/n distribution is non-negative and sums to exactly 1 over the reals |
| Distribution.OneHotIsDistribution | trunk/MachineLearning/src/weka/core/SoftClassifiedFullInstance.java:63-69 | a zero-filled array with a single 1.0 at class c is non-negative and sums to 1 |
| Distribution.InitialDistributionIsDistribution | trunk/MachineLearning/src/weka/core/SoftClassifiedFullInstance.java:59-70 | whichever branch the constructor takes (class known or missing), the resulting distribution is a probability distribution, given at least one class |
| Distribution.SumAfterUpdate | trunk/MachineLearning/src/weka/core/SoftClassifiedFullInstance.java:91-93 | overwriting entry k with p changes the sum of the distribution by exactly p minus the old entry; nothing renormalises |
| Distribution.SetProbabilityKeepsDistributionIff | trunk/MachineLearning/src/weka/core/SoftClassifiedFullInstance.java:91-93 | starting from a probability distribution, setting one class probability gives a distribution again if and only if the new value equals the old one |
| Distribution.KnownClassExample | trunk/MachineLearning/src/weka/core/SoftClassifiedFullInstance.java:63-69 | three classes and known class 1 give the distribution [0, 1, 0] |
| Distribution.MissingClassExample | trunk/MachineLearning/src/weka/core/SoftClassifiedFullInstance.java:63-67 | two classes and a missing class give the distribution [1/2, 1/2] |
| WekaCore.SoftClassifiedFullInstance.FromInstance | trunk/MachineLearning/src/weka/core/SoftClassifiedFullInstance.java:59-70 | the new record holds the same attribute-value array and dataset as the instance (by reference), and the same weight value. It holds a freshly allocated distribution with one entry per class: one-hot on the known class, all 1/n when the class is missing. That distribution is a probability distribution when there is a class |
| WekaCore.SoftClassifiedFullInstance.Empty | trunk/MachineLearning/src/weka/core/SoftClassifiedFullInstance.java:72-73 | the staging record has no attribute values, weight 0, no dataset and no distribution |
| WekaCore.SoftClassifiedFullInstance.GetClassProbability | trunk/MachineLearning/src/weka/core/SoftClassifiedFullInstance.java:86-88 | returns entry k of the distribution array and changes nothing; defined only for k inside the array |
| WekaCore.SoftClassifiedFullInstance.SetClassProbability | trunk/MachineLearning/src/weka/core/SoftClassifiedFullInstance.java:91-93 | entry k becomes p and every other entry keeps its value. A probability distribution stays one exactly when p equals the old entry |
| WekaCore.SoftClassifiedFullInstance.GetClassDistribution | trunk/MachineLearning/src/weka/core/SoftClassifiedFullInstance.java:96-98 | returns the stored array itself, not a copy |
| WekaCore.SoftClassifiedFullInstance.SetClassDistribution | trunk/MachineLearning/src/weka/core/SoftClassifiedFullInstance.java:101-105 | an array whose length differs from the number of classes is refused, and the stored array stays as it was. An array of the right length becomes the stored array by reference, and the record then has one entry per class |
| WekaCore.SoftClassifiedFullInstance.Copy | trunk/MachineLearning/src/weka/core/SoftClassifiedFullInstance.java:115-122 | returns a new object, distinct from this one, whose attribute-value array, dataset and distribution array are this one's, shared and not copied, and whose weight has the same value |
| WekaCore.WriteThroughAcceptedArray | trunk/MachineLearning/src/weka/core/SoftClassifiedFullInstance.java:86-105 | after the record accepts array d, a write to d[k] is the value the record then reports for class k |
| WekaCore.WriteThroughCopy | trunk/MachineLearning/src/weka/core/SoftClassifiedFullInstance.java:115-122 | a probability set on a copy is seen through the original. After the copy is given another array, the original still holds its own array |

## Left out

- The constructor that takes a `java.util.Random`, and `randomClassDistribution`. They draw random
  doubles and call `Utils.normalize`. Utils is not part of this model, so what happens on an all-zero
  draw cannot be stated.
- The internals of `Instance` and of its dataset: `classAttribute().numValues()`, `numClasses()`,
  `classIsMissing()` and `classValue()`. A dataset has a single number of classes. It sizes the
  array in the constructor and is checked against in `SetClassDistribution`. The class value is
  the constructor parameter `classLabel`.
- WekaCore.SoftClassifiedFullInstance.FromInstance: requires the source instance to have a dataset.
  In weka a missing dataset makes `classAttribute()` throw. That exception belongs to `Instance`,
  which is not part of this model.
- WekaCore.SoftClassifiedFullInstance.FromInstance: the `(int)` cast of the class value from a
  double is not modelled. The class value is a natural number below the number of classes, which
  is a precondition. In Java a known class value that is not below the array length makes the
  one-hot write throw ArrayIndexOutOfBoundsException. With zero classes the array is empty, so
  every known class value throws. The model does not cover that exception.
- WekaCore.SoftClassifiedFullInstance.GetClassProbability: an index outside the array, or a record
  with no distribution, is a precondition here. In Java, it raises an unchecked exception. The
  same holds for SetClassProbability.
- WekaCore.SoftClassifiedFullInstance.SetClassDistribution: requires the record to have a dataset,
  because `numClasses()` throws without one. The length-mismatch exception is modelled as the
  `LengthMismatch` outcome. Its message text is not modelled. The parameter is a non-null array,
  so a null argument is outside the model. In Java it throws NullPointerException at `dist.length`
  before any state changes.
- IEEE double rounding. Probabilities are reals, so 1/n is exact, and the uniform distribution sums to
  exactly 1.
- The return type of `copy()` is `Object` in Java. Here `Copy` returns the record's own class.
