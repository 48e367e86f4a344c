/**
  AMazeManager: the training loop that actually runs. A timer closes each
  generation; the next Tick then scores the networks with their agents'
  fitness, ranks them, and breeds a new generation from the top
  PopulationSize/5 networks in five bands with hard-coded mutation rates.
  Agents, actors and timers are outside the model: an agent's fitness is an
  input (None for a missing agent), and a timer firing is a call of
  CloseTimer.
 */
module Maze {
  import opened NeuralNet
  import opened Population
  import opened Bands
  import Evolution

  datatype Option<T> = None | Some(value: T)

  /** The layer sizes every agent network is created with. */
  const Topology: seq<int> := [6, 8, 10, 6, 2]

  /** The mutation rate of band i in the hard-coded switch: 0.1 for any band
      the switch does not name. */
  function BandRate(band: int): (rate: real)
    ensures 0.1 <= rate <= 9.0
    ensures band < 0 || band >= 5 ==> rate == 0.1
  {
    if band == 1 then 0.3
    else if band == 2 then 0.5
    else if band == 3 then 2.0
    else if band == 4 then 9.0
    else 0.1
  }

  /** The hard-coded rates are the EvolutionManager's default rate table. */
  lemma BandRatesAreEvolutionDefaults(m: Evolution.EvolutionManager)
    requires m.numGroups == 5 && m.mutationRates == [0.1, 0.3, 0.5, 2.0, 9.0]
    ensures forall band :: 0 <= band < 5 ==> BandRate(band) == m.mutationRates[band]
    ensures forall band :: band < 0 || band >= 5 ==> BandRate(band) == 0.1
  {
  }

  /** How many networks each band clones: PopulationSize/5 (C++ division),
      of which only indices valid in the ranked array are cloned. */
  function Width(populationSize: int, length: int): (w: int)
    requires length >= 0
    ensures 0 <= w <= length
  {
    Evolution.Visited(CDiv(populationSize, 5), length)
  }

  lemma {:induction false} AtLeastOnce(a: int, w: int)
    requires a >= 1 && w >= 0
    ensures a * w >= w
    decreases a
  {
    if a > 1 {
      AtLeastOnce(a - 1, w);
      assert a * w == (a - 1) * w + w;
    }
  }

  /** Index band * w + j of the next generation sits in band `band`, at
      position j of that band. */
  lemma Slot(band: int, j: int, w: int)
    requires 0 <= band && 0 <= j < w
    ensures (band * w + j) / w == band && (band * w + j) % w == j
  {
    var n := band * w + j;
    var q, r := n / w, n % w;
    assert q * w + r == band * w + j;
    assert (q - band) * w == q * w - band * w;
    if q > band {
      AtLeastOnce(q - band, w);
    } else if q < band {
      AtLeastOnce(band - q, w);
    }
  }

  /** next is five bands of w clones each; band b holds clones of the top w
      ranked networks, in rank order, mutated at BandRate(b). */
  ghost predicate BandClones(next: seq<Network>, ranked: seq<Network>, w: int)
    requires 0 <= w <= |ranked|
    reads next, ranked
  {
    |next| == 5 * w &&
    forall n :: 0 <= n < |next| ==> CloneOf(next[n], ranked[n % w], BandRate(n / w))
  }

  /** A population fit for the agents: distinct, well-shaped networks with
      the agent topology and every weight in [-1, 1]. */
  ghost predicate AgentNetworks(nets: seq<Network>)
    reads nets`layerSizes, nets`neurons, nets`weights
  {
    Distinct(nets) &&
    forall k :: 0 <= k < |nets| ==>
      (nets[k].layerSizes == Topology && nets[k].Valid() && WeightsBounded(nets[k].weights))
  }

  /** Every network of the population has at least one layer: the condition
      the generation swap checks. */
  ghost predicate AllLayered(nets: seq<Network>)
    reads nets
  {
    forall k :: 0 <= k < |nets| ==> |nets[k].layerSizes| != 0
  }

  /** Distinct clones of agent networks are agent networks again, so they
      pass the swap's check. */
  lemma {:induction false} BandClonesKeepTopology(next: seq<Network>, ranked: seq<Network>, w: int)
    requires 0 <= w <= |ranked| && BandClones(next, ranked, w)
    requires AgentNetworks(ranked) && Distinct(next)
    ensures AgentNetworks(next) && AllLayered(next)
  {
    forall n | 0 <= n < |next|
      ensures next[n].layerSizes == Topology && next[n].Valid() && WeightsBounded(next[n].weights)
    {
      CloneKeepsShape(next[n], ranked[n % w], BandRate(n / w));
    }
  }

  /** The next generation holds 5 * (PopulationSize/5) networks when the
      ranked population is large enough: never more than PopulationSize, and
      exactly PopulationSize only when it is a multiple of 5. */
  lemma NextGenerationSize(populationSize: int, length: int)
    requires 0 <= populationSize <= length
    ensures 5 * Width(populationSize, length) == populationSize - populationSize % 5
    ensures 5 * Width(populationSize, length) == populationSize <==> populationSize % 5 == 0
  {
  }

  /** Fewer than five agents breed an empty generation, and an empty
      generation breeds an empty one. */
  lemma SmallPopulationDiesOut(populationSize: int, length: int)
    requires length >= 0
    requires populationSize < 5 || length == 0
    ensures Width(populationSize, length) == 0
  {
  }

  /** The fitness each index contributes to the mean: the agent's fitness,
      or nothing when the agent is missing. */
  function Scores(agentFitness: seq<Option<real>>, m: int): (s: seq<real>)
    requires 0 <= m <= |agentFitness|
    ensures |s| == m
    ensures forall i :: 0 <= i < m ==> s[i] == if agentFitness[i].Some? then agentFitness[i].value else 0.0
  {
    seq(m, i requires 0 <= i < m => if agentFitness[i].Some? then agentFitness[i].value else 0.0)
  }

  /** How many indices the fitness loop can score: below PopulationSize and
      valid in both the agent and the network arrays. */
  function Scored(populationSize: int, networks: int, agents: int): (m: int)
    requires networks >= 0 && agents >= 0
    ensures 0 <= m <= networks && m <= agents
  {
    Evolution.Visited(populationSize, Min(networks, agents))
  }

  /** The body of the fitness loop, over the networks of the current
      generation: returns the sum the mean is taken of. */
  method TransferFitness(nets: seq<Network>, agentFitness: seq<Option<real>>, populationSize: int)
    returns (total: real)
    requires Distinct(nets)
    modifies nets`fitness
    ensures forall k :: 0 <= k < |nets| ==>
      nets[k].fitness ==
        if k < Scored(populationSize, |nets|, |agentFitness|) && agentFitness[k].Some?
        then agentFitness[k].value
        else old(nets[k].fitness)
    ensures total == Sum(Scores(agentFitness, Scored(populationSize, |nets|, |agentFitness|)))
  {
    total := 0.0;
    var i := 0;
    ghost var m := Scored(populationSize, |nets|, |agentFitness|);
    ghost var scores := Scores(agentFitness, m);
    while i < populationSize
      invariant 0 <= i && (i <= populationSize || i == 0)
      invariant forall k :: 0 <= k < |nets| ==>
        nets[k].fitness ==
          if k < i && k < m && agentFitness[k].Some? then agentFitness[k].value
          else old(nets[k].fitness)
      invariant total == Sum(scores[..Min(i, m)])
    {
      if i < |agentFitness| && i < |nets| {
        Evolution.PrefixSumStep(scores, i);
        var agent := agentFitness[i];
        if agent.Some? {
          nets[i].fitness := agent.value;
          total := total + nets[i].fitness;
        }
      }
      i := i + 1;
    }
    assert scores[..m] == scores;
  }

  /** The breeding loops: five bands, each cloning ranked indices
      0 .. PopulationSize/5 - 1 (the same top networks in every band). */
  method CloneTopBands(ranked: seq<Network>, populationSize: int) returns (next: seq<Network>)
    requires forall k :: 0 <= k < |ranked| ==> Initializable(ranked[k].layerSizes)
    ensures BandClones(next, ranked, Width(populationSize, |ranked|))
    ensures forall n :: 0 <= n < |next| ==> fresh(next[n])
    ensures Distinct(next)
  {
    ghost var w := Width(populationSize, |ranked|);
    next := [];
    var band := 0;
    while band < 5
      invariant 0 <= band <= 5
      invariant |next| == band * w
      invariant forall n :: 0 <= n < |next| ==>
        fresh(next[n]) && CloneOf(next[n], ranked[n % w], BandRate(n / w))
      invariant Distinct(next)
    {
      var j := 0;
      while j < CDiv(populationSize, 5)
        invariant 0 <= j
        invariant |next| == band * w + Min(j, w)
        invariant forall n :: 0 <= n < |next| ==>
          fresh(next[n]) && CloneOf(next[n], ranked[n % w], BandRate(n / w))
        invariant Distinct(next)
      {
        if j < |ranked| {
          var clone := CloneMutated(ranked[j], BandRate(band));
          Slot(band, j, w);
          assert clone !in next;
          next := next + [clone];
        }
        j := j + 1;
      }
      band := band + 1;
    }
  }

  /** The validity gate's loop: it stops at the first network without
      layers, and reports whether there was none. */
  method EveryLayered(nets: seq<Network>) returns (valid: bool)
    ensures valid <==> AllLayered(nets)
  {
    var k := 0;
    while k < |nets|
      invariant 0 <= k <= |nets|
      invariant forall m :: 0 <= m < k ==> |nets[m].layerSizes| != 0
    {
      if |nets[k].layerSizes| == 0 {
        return false;
      }
      k := k + 1;
    }
    return true;
  }

  class MazeManager {
    var populationSize: int
    var timeLimit: real
    var generationCount: int
    var isTraining: bool
    var generationFitnessMean: real
    var totalSimulationTime: real
    var totalSimulations: int
    var currentGeneration: seq<Network>
    var nextGeneration: seq<Network>

    /** Every network of the current generation is a distinct, well-shaped
        network with the agent topology. */
    ghost predicate Valid()
      reads this, currentGeneration
    {
      AgentNetworks(currentGeneration)
    }

    /** One agent, thirty seconds per generation, nothing simulated yet. */
    constructor ()
      ensures populationSize == 1 && timeLimit == 30.0
      ensures generationCount == 0 && !isTraining
      ensures generationFitnessMean == 0.0 && totalSimulationTime == 0.0 && totalSimulations == 0
      ensures currentGeneration == [] && nextGeneration == []
      ensures Valid()
    {
      populationSize := 1;
      timeLimit := 30.0;
      generationCount := 0;
      isTraining := false;
      generationFitnessMean := 0.0;
      totalSimulationTime := 0.0;
      totalSimulations := 0;
      currentGeneration := [];
      nextGeneration := [];
    }

    /** The generation timer fired: count the generation and its
        simulations, and stop training so that the next Tick breeds. */
    method CloseTimer()
      modifies this`generationCount, this`totalSimulations, this`isTraining
      ensures generationCount == old(generationCount) + 1
      ensures totalSimulations == old(totalSimulations) + populationSize
      ensures !isTraining
    {
      generationCount := generationCount + 1;
      totalSimulations := totalSimulations + populationSize;
      isTraining := false;
    }

    /** PopulationSize fresh networks with the agent topology, weights drawn
        in [-1, 1] and then mutated at rate 0.5. */
    method InitAgentNetworks()
      modifies this`currentGeneration
      ensures |currentGeneration| == if populationSize > 0 then populationSize else 0
      ensures forall k :: 0 <= k < |currentGeneration| ==>
        fresh(currentGeneration[k]) && currentGeneration[k].GetInputSize() == 6 &&
        WeightsBounded(currentGeneration[k].weights) && currentGeneration[k].fitness == 0.0
      ensures Valid()
    {
      var nets: seq<Network> := [];
      var i := 0;
      while i < populationSize
        invariant 0 <= i && (i <= populationSize || i == 0)
        invariant |nets| == i
        invariant forall k :: 0 <= k < i ==>
          fresh(nets[k]) && nets[k].layerSizes == Topology && nets[k].Valid() &&
          WeightsBounded(nets[k].weights) && nets[k].fitness == 0.0
        invariant Distinct(nets)
      {
        var net := new Network();
        net.Initialize(Topology);
        ghost var drawn := net.weights;
        net.Mutate(0.5);
        MutationKeepsShape(Topology, drawn, net.weights, 0.5);
        MutationBounds(drawn, net.weights, 0.5);
        nets := nets + [net];
        i := i + 1;
      }
      currentGeneration := nets;
    }

    /** The fitness loop: every index below PopulationSize with an agent
        takes that agent's fitness, and the mean is their sum divided by
        PopulationSize. */
    method AssignFitness(agentFitness: seq<Option<real>>)
      requires Valid() && populationSize != 0
      modifies currentGeneration`fitness, this`generationFitnessMean
      ensures Valid()
      ensures forall k :: 0 <= k < |currentGeneration| ==>
        currentGeneration[k].fitness ==
          if k < Scored(populationSize, |currentGeneration|, |agentFitness|) && agentFitness[k].Some?
          then agentFitness[k].value
          else old(currentGeneration[k].fitness)
      ensures generationFitnessMean ==
        Sum(Scores(agentFitness, Scored(populationSize, |currentGeneration|, |agentFitness|))) / (populationSize as real)
    {
      var total := TransferFitness(currentGeneration, agentFitness, populationSize);
      generationFitnessMean := total / (populationSize as real);
    }

    /** TArray::Sort of the current generation, fittest first. */
    method RankCurrent()
      requires Valid()
      modifies this`currentGeneration
      ensures Valid()
      ensures multiset(currentGeneration) == multiset(old(currentGeneration))
      ensures Ranked(currentGeneration)
    {
      var ranked := SortByFitness(currentGeneration);
      PermutationKeepsDistinct(currentGeneration, ranked);
      assert |ranked| == |multiset(ranked)| == |currentGeneration|;
      forall k | 0 <= k < |ranked|
        ensures ranked[k].layerSizes == Topology && ranked[k].Valid() && WeightsBounded(ranked[k].weights)
      {
        assert ranked[k] in multiset(currentGeneration);
      }
      currentGeneration := ranked;
    }

    /** The first half of a later generation step: score the networks with
        their agents' fitness, take the mean, and rank them. */
    method ScoreAndRank(agentFitness: seq<Option<real>>)
      requires Valid() && populationSize != 0
      modifies this`currentGeneration, this`generationFitnessMean, currentGeneration`fitness
      ensures Valid()
      ensures var m := Scored(populationSize, |old(currentGeneration)|, |agentFitness|);
        (forall k :: 0 <= k < |old(currentGeneration)| ==>
          old(currentGeneration)[k].fitness ==
            if k < m && agentFitness[k].Some? then agentFitness[k].value
            else old(currentGeneration[k].fitness)) &&
        generationFitnessMean == Sum(Scores(agentFitness, m)) / (populationSize as real)
      ensures multiset(currentGeneration) == multiset(old(currentGeneration)) && Ranked(currentGeneration)
    {
      AssignFitness(agentFitness);
      RankCurrent();
    }

    /** The second half: NextGeneration is emptied and refilled with band
        clones of the ranked current generation, then the validity gate
        runs; every clone passes it, so the clones become the current
        generation and training resumes. */
    method BreedAndSwap()
      requires Valid()
      modifies this`currentGeneration, this`nextGeneration, this`isTraining
      ensures Valid() && isTraining
      ensures BandClones(nextGeneration, old(currentGeneration), Width(populationSize, |old(currentGeneration)|))
      ensures forall n :: 0 <= n < |nextGeneration| ==> fresh(nextGeneration[n])
      ensures currentGeneration == nextGeneration
    {
      ghost var ranked, w := currentGeneration, Width(populationSize, |currentGeneration|);
      var next := CloneTopBands(currentGeneration, populationSize);
      BandClonesKeepTopology(next, ranked, w);
      label Bred:
      var valid := EveryLayered(next);
      nextGeneration := next;
      if valid {
        currentGeneration := next;
        isTraining := true;
      }
      assert BandClones(next, ranked, w) by {
        forall n | 0 <= n < |next|
          ensures CloneOf(next[n], ranked[n % w], BandRate(n / w))
        {
          assert old@Bred(CloneOf(next[n], ranked[n % w], BandRate(n / w)));
        }
      }
    }

    /** The generation step run by Tick once a generation has closed. The
        first call only builds the initial population; later calls score,
        rank and breed. */
    method ProcessGeneration(agentFitness: seq<Option<real>>) returns (ghost ranked: seq<Network>)
      requires Valid()
      requires generationCount != 0 ==> populationSize != 0
      modifies this`currentGeneration, this`nextGeneration, this`isTraining
      modifies this`generationFitnessMean, currentGeneration`fitness
      ensures Valid() && isTraining
      ensures old(generationCount) == 0 ==>
        |currentGeneration| == (if populationSize > 0 then populationSize else 0) &&
        (forall k :: 0 <= k < |currentGeneration| ==>
          fresh(currentGeneration[k]) && currentGeneration[k].fitness == 0.0) &&
        nextGeneration == old(nextGeneration) && generationFitnessMean == old(generationFitnessMean)
      ensures old(generationCount) != 0 ==>
        var m := Scored(populationSize, |old(currentGeneration)|, |agentFitness|);
        (forall k :: 0 <= k < |old(currentGeneration)| ==>
          old(currentGeneration)[k].fitness ==
            if k < m && agentFitness[k].Some? then agentFitness[k].value
            else old(currentGeneration[k].fitness)) &&
        generationFitnessMean == Sum(Scores(agentFitness, m)) / (populationSize as real) &&
        multiset(ranked) == multiset(old(currentGeneration)) && Ranked(ranked) &&
        BandClones(nextGeneration, ranked, Width(populationSize, |ranked|)) &&
        (forall n :: 0 <= n < |nextGeneration| ==> fresh(nextGeneration[n])) &&
        currentGeneration == nextGeneration
    {
      if generationCount == 0 {
        InitAgentNetworks();
        isTraining := true;
        ranked := [];
      } else {
        ScoreAndRank(agentFitness);
        ranked := currentGeneration;
        BreedAndSwap();
      }
    }

    /** One frame: while training, simulated time advances; once a
        generation has closed, the frame runs the generation step, after
        which training resumes. */
    method Tick(deltaTime: real, agentFitness: seq<Option<real>>) returns (ghost ranked: seq<Network>)
      requires Valid()
      requires generationCount != 0 ==> populationSize != 0
      modifies this`totalSimulationTime, this`currentGeneration, this`nextGeneration, this`isTraining
      modifies this`generationFitnessMean, currentGeneration`fitness
      ensures Valid() && isTraining
      ensures generationCount == old(generationCount) && totalSimulations == old(totalSimulations)
      ensures old(isTraining) ==>
        totalSimulationTime == old(totalSimulationTime) + deltaTime &&
        currentGeneration == old(currentGeneration) && nextGeneration == old(nextGeneration) &&
        generationFitnessMean == old(generationFitnessMean) &&
        forall k :: 0 <= k < |currentGeneration| ==> currentGeneration[k].fitness == old(currentGeneration[k].fitness)
      ensures !old(isTraining) ==> totalSimulationTime == old(totalSimulationTime)
      ensures !old(isTraining) ==> forall k :: 0 <= k < |currentGeneration| ==> fresh(currentGeneration[k])
      ensures !old(isTraining) && old(generationCount) == 0 ==>
        |currentGeneration| == (if populationSize > 0 then populationSize else 0) &&
        (forall k :: 0 <= k < |currentGeneration| ==> currentGeneration[k].fitness == 0.0) &&
        nextGeneration == old(nextGeneration) && generationFitnessMean == old(generationFitnessMean)
      ensures !old(isTraining) && old(generationCount) != 0 ==>
        var m := Scored(populationSize, |old(currentGeneration)|, |agentFitness|);
        (forall k :: 0 <= k < |old(currentGeneration)| ==>
          old(currentGeneration)[k].fitness ==
            if k < m && agentFitness[k].Some? then agentFitness[k].value
            else old(currentGeneration[k].fitness)) &&
        generationFitnessMean == Sum(Scores(agentFitness, m)) / (populationSize as real) &&
        multiset(ranked) == multiset(old(currentGeneration)) && Ranked(ranked) &&
        BandClones(nextGeneration, ranked, Width(populationSize, |ranked|)) &&
        currentGeneration == nextGeneration
    {
      ranked := [];
      if isTraining {
        totalSimulationTime := totalSimulationTime + deltaTime;
      }
      if !isTraining {
        ranked := ProcessGeneration(agentFitness);
      }
    }
  }
}
