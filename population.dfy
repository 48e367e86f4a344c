/**
  Populations of networks, as the two generation managers handle them: an
  ordered sequence of (non-null) network objects, ranked by fitness with the
  fittest first, and the clone-and-mutate step that both managers use to fill
  the next generation.
 */
module Population {
  import opened NeuralNet

  /** Fitness never increases from front to back: index 0 is the fittest. */
  ghost predicate Ranked(pop: seq<Network>)
    reads pop
  {
    forall i, j :: 0 <= i < j < |pop| ==> pop[i].fitness >= pop[j].fitness
  }

  /** No network occurs twice. */
  ghost predicate Distinct(pop: seq<Network>) {
    forall i, j :: 0 <= i < j < |pop| ==> pop[i] != pop[j]
  }

  /** A population without repeats counts each network at most once. */
  lemma {:induction false} DistinctCounts(pop: seq<Network>, n: Network)
    requires Distinct(pop)
    ensures multiset(pop)[n] <= 1
    decreases |pop|
  {
    if |pop| > 0 {
      var last := |pop| - 1;
      DistinctCounts(pop[..last], n);
      assert pop == pop[..last] + [pop[last]];
      if n == pop[last] {
        assert n !in pop[..last];
      }
    }
  }

  /** A network at two indices is counted at least twice. */
  lemma Repeated(pop: seq<Network>, i: int, j: int)
    requires 0 <= i < j < |pop| && pop[i] == pop[j]
    ensures multiset(pop)[pop[i]] >= 2
  {
    assert pop == pop[..j] + [pop[j]] + pop[j + 1..];
    assert pop[i] in pop[..j];
  }

  /** Rearranging a population without repeats leaves none. */
  lemma PermutationKeepsDistinct(a: seq<Network>, b: seq<Network>)
    requires Distinct(a) && multiset(a) == multiset(b)
    ensures Distinct(b)
  {
    forall i, j | 0 <= i < j < |b|
      ensures b[i] != b[j]
    {
      if b[i] == b[j] {
        Repeated(b, i, j);
        DistinctCounts(a, b[i]);
      }
    }
  }

  /** The fitness of every member, in population order. */
  function Fitnesses(pop: seq<Network>): (f: seq<real>)
    reads pop
    ensures |f| == |pop| && forall i :: 0 <= i < |pop| ==> f[i] == pop[i].fitness
  {
    seq(|pop|, i requires 0 <= i < |pop| reads pop => pop[i].fitness)
  }

  /** The sum of xs, accumulated from the front as the managers' loops do. */
  function Sum(xs: seq<real>): real {
    if |xs| == 0 then 0.0 else Sum(xs[..|xs| - 1]) + xs[|xs| - 1]
  }

  lemma {:induction false} SumWithout(xs: seq<real>, k: int)
    requires 0 <= k < |xs|
    ensures Sum(xs) == Sum(xs[..k] + xs[k + 1..]) + xs[k]
    decreases |xs|
  {
    var n := |xs|;
    if k < n - 1 {
      SumWithout(xs[..n - 1], k);
      assert xs[..n - 1][..k] + xs[..n - 1][k + 1..] == (xs[..k] + xs[k + 1..])[..n - 2];
      assert (xs[..k] + xs[k + 1..])[n - 2] == xs[n - 1];
    } else {
      assert xs[..k] + xs[k + 1..] == xs[..n - 1];
    }
  }

  lemma MultisetWithout<T>(s: seq<T>, k: int)
    requires 0 <= k < |s|
    ensures multiset(s[..k] + s[k + 1..]) == multiset(s) - multiset{s[k]}
  {
    assert s == s[..k] + [s[k]] + s[k + 1..];
  }

  lemma FitnessesWithout(s: seq<Network>, k: int)
    requires 0 <= k < |s|
    ensures multiset(Fitnesses(s)) == multiset(Fitnesses(s[..k] + s[k + 1..])) + multiset{s[k].fitness}
  {
    var f := Fitnesses(s);
    var g := Fitnesses(s[..k] + s[k + 1..]);
    assert g == f[..k] + f[k + 1..] by {
      forall i | 0 <= i < |g|
        ensures g[i] == (f[..k] + f[k + 1..])[i]
      {
        if i < k {
          assert (s[..k] + s[k + 1..])[i] == s[i];
        } else {
          assert (s[..k] + s[k + 1..])[i] == s[i + 1];
        }
      }
    }
    MultisetWithout(f, k);
    assert f[k] in multiset(f);
  }

  /** Rearranging a population rearranges its fitness values alike. */
  lemma {:induction false} FitnessesOfPermutation(a: seq<Network>, b: seq<Network>)
    requires multiset(a) == multiset(b)
    ensures multiset(Fitnesses(a)) == multiset(Fitnesses(b))
    decreases |a|
  {
    if |a| > 0 {
      var n := |a|;
      assert a[n - 1] in multiset(b);
      var k :| 0 <= k < |b| && b[k] == a[n - 1];
      var front, rest := a[..n - 1], b[..k] + b[k + 1..];
      assert a[..n - 1] + a[n..] == front;
      assert multiset(front) == multiset(rest) by {
        MultisetWithout(b, k);
        MultisetWithout(a, n - 1);
      }
      FitnessesOfPermutation(front, rest);
      FitnessesWithout(a, n - 1);
      FitnessesWithout(b, k);
    } else {
      assert |b| == 0;
    }
  }

  /** The sum of a population's fitness does not depend on its order, so the
      mean taken before ranking equals the mean of the ranked population. */
  lemma {:induction false} SumOfPermutation(xs: seq<real>, ys: seq<real>)
    requires multiset(xs) == multiset(ys)
    ensures Sum(xs) == Sum(ys)
    decreases |xs|
  {
    if |xs| > 0 {
      var n := |xs|;
      assert xs[n - 1] in multiset(ys);
      var k :| 0 <= k < |ys| && ys[k] == xs[n - 1];
      MultisetWithout(ys, k);
      MultisetWithout(xs, n - 1);
      assert xs[..n - 1] + xs[n..] == xs[..n - 1];
      SumOfPermutation(xs[..n - 1], ys[..k] + ys[k + 1..]);
      SumWithout(ys, k);
    } else {
      assert |ys| == 0;
    }
  }

  /** TArray::Sort with the managers' predicate `A.Fitness > B.Fitness`: a
      rearrangement of the population with the fittest first. The order among
      equal fitness is not specified (TArray::Sort is not stable). */
  method SortByFitness(pop: seq<Network>) returns (ranked: seq<Network>)
    ensures multiset(ranked) == multiset(pop)
    ensures Ranked(ranked)
  {
    ranked := pop;
    var i := 0;
    while i < |ranked|
      invariant 0 <= i <= |ranked| == |pop|
      invariant multiset(ranked) == multiset(pop)
      invariant forall a, b :: 0 <= a < b < i ==> ranked[a].fitness >= ranked[b].fitness
      decreases |pop| - i
    {
      var j := i;
      while j > 0 && ranked[j - 1].fitness < ranked[j].fitness
        invariant 0 <= j <= i < |ranked| == |pop|
        invariant multiset(ranked) == multiset(pop)
        invariant forall a, b :: 0 <= a < b <= i && a != j && b != j ==> ranked[a].fitness >= ranked[b].fitness
        invariant forall b :: j < b <= i ==> ranked[j].fitness > ranked[b].fitness
      {
        ranked := ranked[j - 1 := ranked[j]][j := ranked[j - 1]];
        j := j - 1;
      }
      i := i + 1;
    }
  }

  /** The clone a manager makes of `source` and mutates at `rate`: same layer
      sizes and neuron buffer, a possible mutation of the source's weights,
      and the zero fitness of a new object. */
  ghost predicate CloneOf(clone: Network, source: Network, rate: real)
    reads clone, source
  {
    clone.layerSizes == source.layerSizes &&
    clone.neurons == source.neurons &&
    IsMutation(source.weights, clone.weights, rate) &&
    clone.fitness == 0.0
  }

  /** NewObject, Initialize with the source's layer sizes, CopyWeights from
      the source, then Mutate at `rate`; the source is not touched. */
  method CloneMutated(source: Network, rate: real) returns (clone: Network)
    requires Initializable(source.layerSizes)
    ensures fresh(clone)
    ensures CloneOf(clone, source, rate)
  {
    clone := new Network();
    var layerConfig := source.layerSizes;
    clone.Initialize(layerConfig);
    clone.CopyWeights(source);
    clone.Mutate(rate);
  }

  /** A clone of a well-shaped network is well shaped, and its weights stay
      in [-1, 1] when the source's were. */
  lemma CloneKeepsShape(clone: Network, source: Network, rate: real)
    requires CloneOf(clone, source, rate) && source.Valid()
    ensures clone.Valid()
    ensures WeightsBounded(source.weights) ==> WeightsBounded(clone.weights)
  {
    MutationKeepsShape(source.layerSizes, source.weights, clone.weights, rate);
    if WeightsBounded(source.weights) {
      MutationBounds(source.weights, clone.weights, rate);
    }
  }
}
