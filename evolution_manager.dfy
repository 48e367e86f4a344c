/**
  UEvolutionManager: the configurable generation step. It averages the
  fitness of the current generation, ranks it fittest first, repairs its own
  group configuration, splits the ranked population into NumGroups
  contiguous bands and fills the next generation with one mutated clone per
  ranked network, each mutated at its band's rate.
 */
module Evolution {
  import opened NeuralNet
  import opened Population
  import opened Bands

  /** How many of the indices 0 .. populationSize-1 are valid positions of
      an array of the given length. */
  function Visited(populationSize: int, length: int): (v: int)
    requires length >= 0
    ensures 0 <= v <= length
    ensures v == 0 || v <= populationSize
  {
    if populationSize <= 0 then 0 else Min(populationSize, length)
  }

  /** The sum that the fitness loop accumulates, written as the same
      left-to-right sum over the first n members. */
  lemma PrefixSumStep(xs: seq<real>, n: int)
    requires 0 <= n < |xs|
    ensures Sum(xs[..n + 1]) == Sum(xs[..n]) + xs[n]
  {
    assert xs[..n + 1][..n] == xs[..n];
  }

  /** When every member takes part in the average, the mean does not depend
      on the order of the population: it is the same before and after
      ranking. */
  lemma MeanIgnoresOrder(current: seq<Network>, ranked: seq<Network>, populationSize: int)
    requires multiset(ranked) == multiset(current)
    requires populationSize >= |current|
    ensures Sum(Fitnesses(current)[..Visited(populationSize, |current|)]) ==
            Sum(Fitnesses(ranked)[..Visited(populationSize, |ranked|)])
  {
    assert |ranked| == |multiset(ranked)| == |current|;
    FitnessesOfPermutation(current, ranked);
    if populationSize <= 0 {
      assert Fitnesses(current)[..0] == Fitnesses(ranked)[..0];
    } else {
      assert Fitnesses(current)[..|current|] == Fitnesses(current);
      assert Fitnesses(ranked)[..|ranked|] == Fitnesses(ranked);
      SumOfPermutation(Fitnesses(current), Fitnesses(ranked));
    }
  }

  class EvolutionManager {
    var numGroups: int
    var mutationRates: seq<real>

    /** Five groups with rates 0.1, 0.3, 0.5, 2 and 9 percent. */
    constructor ()
      ensures numGroups == 5 && mutationRates == [0.1, 0.3, 0.5, 2.0, 9.0]
      ensures |mutationRates| == numGroups
    {
      numGroups := 5;
      mutationRates := [0.1, 0.3, 0.5, 2.0, 9.0];
    }

    /** The first loop: add up the fitness of every valid index below
        populationSize, then divide by populationSize. */
    static method FitnessMean(current: seq<Network>, populationSize: int) returns (mean: real)
      requires populationSize != 0
      ensures mean == Sum(Fitnesses(current)[..Visited(populationSize, |current|)]) / (populationSize as real)
      ensures populationSize >= |current| > 0 ==>
        mean == Sum(Fitnesses(current)) / (populationSize as real)
    {
      var fitness := Fitnesses(current);
      var total := 0.0;
      var i := 0;
      while i < populationSize
        invariant 0 <= i && (i <= populationSize || i == 0)
        invariant total == Sum(fitness[..Min(i, |current|)])
      {
        if i < |current| {
          PrefixSumStep(fitness, i);
          total := total + current[i].fitness;
        }
        i := i + 1;
      }
      assert total == Sum(fitness[..Visited(populationSize, |current|)]);
      mean := total / (populationSize as real);
      if populationSize >= |current| > 0 {
        assert fitness[..|current|] == fitness;
      }
    }

    /** The configuration repair: a non-positive group count becomes 1, and
        a rate table of the wrong length becomes numGroups copies of 0.1. */
    method RepairConfiguration()
      modifies this
      ensures numGroups == if old(numGroups) <= 0 then 1 else old(numGroups)
      ensures mutationRates ==
        if |old(mutationRates)| == numGroups then old(mutationRates) else seq(numGroups, _ => 0.1)
      ensures numGroups > 0 && |mutationRates| == numGroups
    {
      if numGroups <= 0 {
        numGroups := 1;
      }
      if |mutationRates| != numGroups {
        var rates: seq<real> := [];
        var i := 0;
        while i < numGroups
          invariant 0 <= i <= numGroups
          invariant rates == seq(i, _ => 0.1)
        {
          rates := rates + [0.1];
          i := i + 1;
        }
        mutationRates := rates;
      }
    }

    /** The band loop: band `group` covers the ranked indices from its start
        for BandSize places, and every such index that is valid gets one
        clone, mutated at the band's rate. The clones come out in rank
        order. */
    static method CloneBands(ranked: seq<Network>, populationSize: int, groups: int, rates: seq<real>)
      returns (next: seq<Network>)
      requires groups > 0 && |rates| == groups
      requires forall k :: 0 <= k < |ranked| ==> Initializable(ranked[k].layerSizes)
      ensures |next| == Visited(populationSize, |ranked|)
      ensures forall k :: 0 <= k < |next| ==>
        fresh(next[k]) && CloneOf(next[k], ranked[k], rates[BandOf(populationSize, groups, k)])
      ensures Distinct(next)
    {
      var baseGroupSize := CDiv(populationSize, groups);
      var remainder := CMod(populationSize, groups);
      next := [];
      var startIndex := 0;
      var group := 0;
      while group < groups
        invariant 0 <= group <= groups
        invariant startIndex == BandStart(populationSize, groups, group)
        invariant populationSize >= 0 ==> 0 <= startIndex <= populationSize
        invariant populationSize < 0 ==> startIndex <= 0
        invariant |next| == Visited(startIndex, |ranked|)
        invariant |next| == 0 || |next| <= populationSize
        invariant forall k :: 0 <= k < |next| ==>
          fresh(next[k]) && CloneOf(next[k], ranked[k], rates[BandOf(populationSize, groups, k)])
        invariant Distinct(next)
      {
        var currentGroupSize := baseGroupSize + (if group < remainder then 1 else 0);
        assert currentGroupSize == BandSize(populationSize, groups, group);
        if populationSize < 0 {
          NegativePopulationHasNoBands(populationSize, groups, group);
        } else {
          BandStartMonotone(populationSize, groups, group + 1, groups);
          BandsCoverPopulation(populationSize, groups);
        }
        var j := 0;
        while j < currentGroupSize
          invariant 0 <= j && (j <= currentGroupSize || j == 0)
          invariant |next| == Visited(startIndex + j, |ranked|)
          invariant |next| == 0 || |next| <= populationSize
          invariant forall k :: 0 <= k < |next| ==>
            fresh(next[k]) && CloneOf(next[k], ranked[k], rates[BandOf(populationSize, groups, k)])
          invariant Distinct(next)
        {
          var netIndex := startIndex + j;
          if 0 <= netIndex < |ranked| {
            var clone := CloneMutated(ranked[netIndex], rates[group]);
            BandOfUnique(populationSize, groups, netIndex, group);
            assert clone !in next;
            next := next + [clone];
          }
          j := j + 1;
        }
        startIndex := startIndex + currentGroupSize;
        group := group + 1;
      }
      if populationSize >= 0 {
        BandsCoverPopulation(populationSize, groups);
      }
    }

    /** One generation step. The ranked population is what the caller's
        CurrentGeneration array holds afterwards (it is sorted in place);
        the manager changes only its own configuration, so the networks of
        the current generation are left as they were. */
    method ProcessGeneration(current: seq<Network>, populationSize: int)
      returns (ranked: seq<Network>, next: seq<Network>, mean: real)
      requires populationSize != 0
      requires forall k :: 0 <= k < |current| ==> Initializable(current[k].layerSizes)
      modifies this
      ensures mean == Sum(Fitnesses(current)[..Visited(populationSize, |current|)]) / (populationSize as real)
      ensures |ranked| == |current| && multiset(ranked) == multiset(current) && Ranked(ranked)
      ensures numGroups == if old(numGroups) <= 0 then 1 else old(numGroups)
      ensures mutationRates ==
        if |old(mutationRates)| == numGroups then old(mutationRates) else seq(numGroups, _ => 0.1)
      ensures |mutationRates| == numGroups > 0
      ensures |next| == Visited(populationSize, |current|)
      ensures forall k :: 0 <= k < |next| ==>
        fresh(next[k]) && CloneOf(next[k], ranked[k], mutationRates[BandOf(populationSize, numGroups, k)])
      ensures Distinct(next)
    {
      mean := FitnessMean(current, populationSize);
      ranked := SortByFitness(current);
      assert |ranked| == |multiset(ranked)| == |current|;
      forall k | 0 <= k < |ranked|
        ensures Initializable(ranked[k].layerSizes)
      {
        assert ranked[k] in multiset(current);
      }
      RepairConfiguration();
      next := CloneBands(ranked, populationSize, numGroups, mutationRates);
    }
  }
}
