/*
  The classification scorer of the CGPBP experiment harness: `accuracy`
  runs a chromosome on every sample of a data set, takes the output with
  the strictly greatest value as the predicted class and the last target
  equal to 1.0 as the true class, and returns minus the fraction of
  samples where the two agree.
*/
module Scoring {

  /** A double as the scorer can return it: a number, or the NaN of 0/0.0. */
  datatype Number = Num(value: real) | NaN

  /** Which arity check made the scorer terminate the process. */
  datatype Arity = Inputs | Outputs

  /** What a call of the scorer amounts to: the process exits, or a value comes back. */
  datatype Outcome = Terminated(mismatch: Arity) | Returned(score: Number)

  /** Minus a number, as the ledger lines print `-testAccuracy`. */
  function Negate(x: Number): (r: Number)
    ensures x.NaN? <==> r.NaN?
    ensures x.Num? ==> r.value + x.value == 0.0
  {
    match x
    case Num(v) => Num(-v)
    case NaN => NaN
  }

  /** A data set: one input row and one target row per sample. */
  datatype DataSet = DataSet(numInputs: nat, numOutputs: nat, inputs: seq<seq<real>>, targets: seq<seq<real>>)
  {
    function NumSamples(): nat { |inputs| }

    /** Every row has the width the data set declares. */
    predicate Valid()
    {
      |targets| == |inputs| &&
      (forall k :: 0 <= k < |inputs| ==> |inputs[k]| == numInputs) &&
      (forall k :: 0 <= k < |targets| ==> |targets[k]| == numOutputs)
    }
  }

  /**
    A chromosome seen from the scorer: its arity and the value its output
    node j holds after it is executed on an input row (what
    `executeChromosome` followed by `getChromosomeOutput` yields). How it
    computes them belongs to the CGP library and is left abstract.
  */
  datatype Chromosome = Chromosome(numInputs: nat, numOutputs: nat, output: (seq<real>, nat) -> real)

  /** The values of all output nodes after executing c on input row x. */
  function OutputValues(c: Chromosome, x: seq<real>): (o: seq<real>)
    ensures |o| == c.numOutputs
    ensures forall j :: 0 <= j < c.numOutputs ==> o[j] == c.output(x, j)
  {
    seq(c.numOutputs, j requires 0 <= j => c.output(x, j))
  }

  /** Data sets whose row widths are consistent, as the library builds them. */
  type WellFormedDataSet = d: DataSet | d.Valid() witness DataSet(0, 0, [], [])

  /*
    Predicted class: the argmax loop keeps the first index whose value is
    strictly greater than everything before it.
  */

  /** The index the argmax loop holds after scanning the first n outputs. */
  function Predicted(o: seq<real>, n: nat): (k: nat)
    requires n <= |o|
    ensures n == 0 ==> k == 0
    ensures n > 0 ==> k < n
    decreases n
  {
    if n <= 1 then 0
    else
      var k := Predicted(o, n - 1);
      if o[n - 1] > o[k] then n - 1 else k
  }

  function PredictedClass(o: seq<real>): nat
  {
    Predicted(o, |o|)
  }

  /** k is the lowest index of o that attains the maximum of o. */
  predicate IsFirstMax(o: seq<real>, k: nat)
  {
    k < |o| &&
    (forall m :: 0 <= m < |o| ==> o[m] <= o[k]) &&
    (forall m :: 0 <= m < k ==> o[m] < o[k])
  }

  lemma {:induction false} PredictedPrefixIsFirstMax(o: seq<real>, n: nat)
    requires 0 < n <= |o|
    ensures IsFirstMax(o[..n], Predicted(o, n))
  {
    if n > 1 {
      PredictedPrefixIsFirstMax(o, n - 1);
      assert o[..n - 1] == o[..n][..n - 1];
    }
  }

  lemma FirstMaxUnique(o: seq<real>, k1: nat, k2: nat)
    requires IsFirstMax(o, k1) && IsFirstMax(o, k2)
    ensures k1 == k2
  {
    assert o[k1] == o[k2];
  }

  /** The predicted class is the lowest index attaining the maximum output, and 0 when there are no outputs. */
  lemma PredictedClassIsFirstMax(o: seq<real>, k: nat)
    ensures PredictedClass(o) == k <==> (|o| == 0 && k == 0) || IsFirstMax(o, k)
  {
    if |o| > 0 {
      PredictedPrefixIsFirstMax(o, |o|);
      assert o[..|o|] == o;
      if IsFirstMax(o, k) {
        FirstMaxUnique(o, k, PredictedClass(o));
      }
    }
  }

  /*
    True class: every target equal to 1.0 overwrites `correct_class`, so
    the last such index wins, and 0 stays when there is none.
  */

  /** The index the true-class loop holds after scanning the first n targets. */
  function TrueClass(t: seq<real>, n: nat): (k: nat)
    requires n <= |t|
    ensures n == 0 ==> k == 0
    ensures n > 0 ==> k < n
    decreases n
  {
    if n == 0 then 0
    else if t[n - 1] == 1.0 then n - 1
    else TrueClass(t, n - 1)
  }

  function TrueClassOf(t: seq<real>): nat
  {
    TrueClass(t, |t|)
  }

  /** k is the last index of t whose target is 1.0. */
  predicate IsLastOne(t: seq<real>, k: nat)
  {
    k < |t| && t[k] == 1.0 && forall m :: k < m < |t| ==> t[m] != 1.0
  }

  predicate HasOne(t: seq<real>)
  {
    exists m :: 0 <= m < |t| && t[m] == 1.0
  }

  lemma {:induction false} TrueClassPrefix(t: seq<real>, n: nat)
    requires n <= |t|
    ensures HasOne(t[..n]) ==> IsLastOne(t[..n], TrueClass(t, n))
    ensures !HasOne(t[..n]) ==> TrueClass(t, n) == 0
  {
    if n > 0 {
      TrueClassPrefix(t, n - 1);
      assert t[..n - 1] == t[..n][..n - 1];
      if t[n - 1] != 1.0 && HasOne(t[..n]) {
        var m :| 0 <= m < n && t[..n][m] == 1.0;
        assert t[..n - 1][m] == 1.0;
      }
    }
  }

  /** The true class is the last index whose target equals 1.0, or 0 when no target does. */
  lemma TrueClassIsLastOne(t: seq<real>, k: nat)
    ensures TrueClassOf(t) == k <==> (HasOne(t) && IsLastOne(t, k)) || (!HasOne(t) && k == 0)
  {
    TrueClassPrefix(t, |t|);
    assert t[..|t|] == t;
  }

  /** A sample with no target equal to 1.0 counts as correct exactly when its predicted class is 0. */
  lemma NoOneTargetMeansClassZero(o: seq<real>, t: seq<real>)
    requires !HasOne(t)
    ensures PredictedClass(o) == TrueClassOf(t) <==> PredictedClass(o) == 0
  {
    TrueClassIsLastOne(t, 0);
  }

  /*
    Counting and the returned score.
  */

  /** The data set is well formed and the arity checks pass. */
  predicate Matched(c: Chromosome, d: DataSet)
  {
    d.Valid() && c.numInputs == d.numInputs && c.numOutputs == d.numOutputs
  }

  /** Sample k is classified correctly. */
  predicate Hit(c: Chromosome, d: DataSet, k: nat)
    requires Matched(c, d) && k < d.NumSamples()
  {
    PredictedClass(OutputValues(c, d.inputs[k])) == TrueClassOf(d.targets[k])
  }

  /** The number of correctly classified samples among the first n. */
  function CountHits(c: Chromosome, d: DataSet, n: nat): (r: nat)
    requires Matched(c, d) && n <= d.NumSamples()
    ensures r <= n
    decreases n
  {
    if n == 0 then 0
    else CountHits(c, d, n - 1) + (if Hit(c, d, n - 1) then 1 else 0)
  }

  /** What `accuracy` returns or does for chromosome c on data set d. */
  function AccuracyOf(c: Chromosome, d: DataSet): Outcome
    requires d.Valid()
  {
    if c.numInputs != d.numInputs then Terminated(Inputs)
    else if c.numOutputs != d.numOutputs then Terminated(Outputs)
    else if d.NumSamples() == 0 then Returned(NaN)
    else Returned(Num(-(CountHits(c, d, d.NumSamples()) as real) / (d.NumSamples() as real)))
  }

  /**
    One sample's pass of the scorer's inner loop: the first output index
    holding the largest output, and the last target index holding 1.0
    (0 when there is none).
  */
  method ClassifySample(c: Chromosome, x: seq<real>, t: seq<real>) returns (predicted: nat, correct: nat)
    requires |t| == c.numOutputs
    ensures predicted == PredictedClass(OutputValues(c, x))
    ensures correct == TrueClassOf(t)
  {
    ghost var o := OutputValues(c, x);
    var maxPredicted := 0.0;
    predicted := 0;
    correct := 0;
    var j := 0;
    while j < c.numOutputs
      invariant 0 <= j <= c.numOutputs
      invariant predicted == Predicted(o, j)
      invariant j > 0 ==> maxPredicted == o[predicted]
      invariant correct == TrueClass(t, j)
    {
      var current := c.output(x, j);
      if j == 0 || current > maxPredicted {
        maxPredicted := current;
        predicted := j;
      }
      if t[j] == 1.0 {
        correct := j;
      }
      j := j + 1;
    }
  }

  /**
    The scorer: an input-arity and an output-arity check that end the
    process, then one argmax / true-class pass per sample and a count.
  */
  method Accuracy(c: Chromosome, d: DataSet) returns (r: Outcome)
    requires d.Valid()
    ensures r == AccuracyOf(c, d)
  {
    if c.numInputs != d.numInputs {
      return Terminated(Inputs);
    }
    if c.numOutputs != d.numOutputs {
      return Terminated(Outputs);
    }
    var hits := 0;
    var i := 0;
    while i < d.NumSamples()
      invariant 0 <= i <= d.NumSamples()
      invariant hits == CountHits(c, d, i)
    {
      var predicted, correct := ClassifySample(c, d.inputs[i], d.targets[i]);
      if predicted == correct {
        hits := hits + 1;
      }
      i := i + 1;
    }
    if d.NumSamples() == 0 {
      return Returned(NaN);
    }
    return Returned(Num(-(hits as real) / (d.NumSamples() as real)));
  }

  /*
    Properties of the score.
  */

  /** A returned number lies in [-1, 0]. */
  lemma AccuracyInRange(c: Chromosome, d: DataSet)
    requires d.Valid()
    ensures AccuracyOf(c, d).Returned? && AccuracyOf(c, d).score.Num? ==>
              -1.0 <= AccuracyOf(c, d).score.value <= 0.0
  {
    if Matched(c, d) && d.NumSamples() > 0 {
      var n := d.NumSamples();
      ScoreArithmetic(CountHits(c, d, n) as real, n as real);
    }
  }

  /** The arithmetic behind the score: -h/n lies in [-1, 0] and is -1 exactly when h = n. */
  lemma ScoreArithmetic(h: real, n: real)
    requires 0.0 <= h <= n && 0.0 < n
    ensures -1.0 <= -h / n <= 0.0
    ensures -h / n == -1.0 <==> h == n
  {
    var f := -h / n;
    assert f * n == -h;
    assert (f + 1.0) * n == n - h;
  }

  /** The correctly classified samples among the first n. */
  ghost function HitSet(c: Chromosome, d: DataSet, n: nat): set<nat>
    requires Matched(c, d) && n <= d.NumSamples()
  {
    set k: nat | k < n && Hit(c, d, k)
  }

  lemma HitSetMembers(c: Chromosome, d: DataSet, n: nat, k: nat)
    requires Matched(c, d) && n <= d.NumSamples()
    ensures k in HitSet(c, d, n) <==> k < n && Hit(c, d, k)
  {
  }

  lemma {:induction false} CountHitsIsHitSetSize(c: Chromosome, d: DataSet, n: nat)
    requires Matched(c, d) && n <= d.NumSamples()
    ensures CountHits(c, d, n) == |HitSet(c, d, n)|
  {
    hide Hit, Matched, HitSet;
    if n > 0 {
      CountHitsIsHitSetSize(c, d, n - 1);
      var before, after := HitSet(c, d, n - 1), HitSet(c, d, n);
      var added := if Hit(c, d, n - 1) then {n - 1} else {};
      forall k: nat
        ensures k in after <==> k in before + added
      {
        HitSetMembers(c, d, n, k);
        HitSetMembers(c, d, n - 1, k);
      }
      assert after == before + added;
      HitSetMembers(c, d, n - 1, n - 1);
      assert n - 1 !in before;
    } else {
      forall k: nat
        ensures k !in HitSet(c, d, 0)
      {
        HitSetMembers(c, d, 0, k);
      }
      assert HitSet(c, d, 0) == {};
    }
  }

  /** On a non-empty data set with matching arities the score is minus the
      number of correctly classified samples over the number of samples. */
  lemma AccuracyIsMinusHitFraction(c: Chromosome, d: DataSet)
    requires Matched(c, d) && d.NumSamples() > 0
    ensures AccuracyOf(c, d) == Returned(Num(-(|HitSet(c, d, d.NumSamples())| as real) / (d.NumSamples() as real)))
  {
    CountHitsIsHitSetSize(c, d, d.NumSamples());
  }

  /** The scorer yields NaN exactly when the arities match and the data set is empty. */
  lemma AccuracyNaNIffEmpty(c: Chromosome, d: DataSet)
    requires d.Valid()
    ensures AccuracyOf(c, d) == Returned(NaN) <==> Matched(c, d) && d.NumSamples() == 0
  {
  }

  /** The process is terminated exactly when an arity differs, the input check coming first. */
  lemma AccuracyTerminatesIffArityDiffers(c: Chromosome, d: DataSet)
    requires d.Valid()
    ensures AccuracyOf(c, d).Terminated? <==> c.numInputs != d.numInputs || c.numOutputs != d.numOutputs
    ensures AccuracyOf(c, d) == Terminated(Inputs) <==> c.numInputs != d.numInputs
  {
  }

  lemma {:induction false} CountHitsAll(c: Chromosome, d: DataSet, n: nat)
    requires Matched(c, d) && n <= d.NumSamples()
    ensures CountHits(c, d, n) == n <==> forall k :: 0 <= k < n ==> Hit(c, d, k)
  {
    hide Hit, Matched;
    if n > 0 {
      CountHitsAll(c, d, n - 1);
    }
  }

  /** The score is -1 exactly when the data set is non-empty and every sample is classified correctly. */
  lemma PerfectScoreIffAllHit(c: Chromosome, d: DataSet)
    requires Matched(c, d)
    ensures AccuracyOf(c, d) == Returned(Num(-1.0)) <==>
              d.NumSamples() > 0 && forall k :: 0 <= k < d.NumSamples() ==> Hit(c, d, k)
  {
    var n := d.NumSamples();
    CountHitsAll(c, d, n);
    if n > 0 {
      ScoreArithmetic(CountHits(c, d, n) as real, n as real);
    }
  }

  /** t is a one-hot target for class k: its only entry equal to 1.0 is at k. */
  predicate OneHot(t: seq<real>, k: nat)
  {
    k < |t| && t[k] == 1.0 && forall m :: 0 <= m < |t| && m != k ==> t[m] != 1.0
  }

  /** Every sample's argmax matches its one-hot target: the score is -1. */
  lemma ArgmaxMatchingOneHotScoresMinusOne(c: Chromosome, d: DataSet, classes: seq<nat>)
    requires Matched(c, d) && d.NumSamples() > 0 && |classes| == d.NumSamples()
    requires forall k :: 0 <= k < |classes| ==> OneHot(d.targets[k], classes[k])
    requires forall k :: 0 <= k < |classes| ==> IsFirstMax(OutputValues(c, d.inputs[k]), classes[k])
    ensures AccuracyOf(c, d) == Returned(Num(-1.0))
  {
    forall k | 0 <= k < d.NumSamples()
      ensures Hit(c, d, k)
    {
      PredictedClassIsFirstMax(OutputValues(c, d.inputs[k]), classes[k]);
      TrueClassIsLastOne(d.targets[k], classes[k]);
    }
    PerfectScoreIffAllHit(c, d);
  }

  /** Each entry is 0.0 except one 1.0 at index k. */
  predicate ZeroOneHot(t: seq<real>, k: nat)
  {
    k < |t| && t[k] == 1.0 && forall m :: 0 <= m < |t| && m != k ==> t[m] == 0.0
  }

  /** A chromosome whose outputs reproduce every 0/1 one-hot target exactly scores -1. */
  lemma ExactOutputsScoreMinusOne(c: Chromosome, d: DataSet, classes: seq<nat>)
    requires Matched(c, d) && d.NumSamples() > 0 && |classes| == d.NumSamples()
    requires forall k :: 0 <= k < |classes| ==> ZeroOneHot(d.targets[k], classes[k])
    requires forall k :: 0 <= k < |classes| ==> OutputValues(c, d.inputs[k]) == d.targets[k]
    ensures AccuracyOf(c, d) == Returned(Num(-1.0))
  {
    ArgmaxMatchingOneHotScoresMinusOne(c, d, classes);
  }
}
