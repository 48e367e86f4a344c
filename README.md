# NN_Maze neuro-evolution core, modelled in Dafny

NN_Maze trains maze-running agents with a generational genetic algorithm.
Each agent is steered by a small fixed-topology feedforward network
(`UNeuralNetwork`). When a generation's time runs out, the networks are
ranked by their agents' fitness and a new generation is bred from them as
mutated clones. This project models that numeric core:

- `neural_network.dfy` (module `NeuralNet`): the network object. It covers
  `Initialize`, `CopyWeights`, `FeedForward`, `Mutate` and `GetInputSize`.
  The forward pass is specified by the functions `Dot`, `Layer` and
  `Activation`. A mutation is specified by the relation `IsMutation`.
- `population.dfy` (module `Population`): populations as sequences of
  network objects. It holds the "fittest first" order, the sort that
  produces it, and the clone-and-mutate block that both generation managers
  share.
- `bands.dfy` (module `Bands`): the C++ integer division and remainder, and
  the split of a ranked population into contiguous bands whose sizes differ
  by at most one.
- `evolution_manager.dfy` (module `Evolution`): `UEvolutionManager`, the
  configurable generation step. It averages fitness, ranks, repairs its own
  group configuration and clones every ranked network at its band's rate.
- `maze_manager.dfy` (module `Maze`): `AMazeManager`, the training loop the
  game runs. It covers the timer callback, `Tick`, the initial population and
  its own generation step. That step clones the top `PopulationSize / 5`
  networks five times, at hard-coded rates.

Floats are modelled as reals and `int32` as unbounded integers. The global
random generator is modelled as a nondeterministic choice. `tanh` is a
parameter of the forward pass, and only its range [-1, 1] is known about it.
The agents are an input to the generation step: one `Option<real>` fitness
per agent, where `None` stands for a missing agent.

The code breeds by banded clone-and-mutate only, in two versions
(`UEvolutionManager` and `AMazeManager`). Elitism, crossover and
fitness-adaptive mutation appear in no source file, and the model has none of
them.

A few lemmas are proof helpers for the loop proofs and model no source line
of their own: `Evolution.PrefixSumStep` (one more term of a prefix sum),
`Maze.AtLeastOnce` and `Maze.Slot` (index arithmetic of the five bands),
`Bands.ClosedFormStep`, `NeuralNet.DotStep` and the multiset and sum steps
in `population.dfy`. They have no row below.

## Model

| member | source | states |
|---|---|---|
| NeuralNet.FRandRange | Source/NN_Maze/Private/NeuralNetwork.cpp:21 | a random draw lies in the requested range |
| NeuralNet.Resized | Source/NN_Maze/Private/NeuralNetwork.cpp:7-18 | `SetNum` yields exactly n elements, keeps the old elements below n and fills the new places with the default value |
| NeuralNet.Layer | Source/NN_Maze/Private/NeuralNetwork.cpp:54-62 | a computed layer has one activation per weight row, each in [-1, 1] |
| NeuralNet.Activation | Source/NN_Maze/Private/NeuralNetwork.cpp:47-63 | the activations of layer i are as wide as layer i, and every layer after the input lies in [-1, 1] |
| NeuralNet.WeightedSum | Source/NN_Maze/Private/NeuralNetwork.cpp:56-60 | the accumulated `Value` is the dot product of the neuron's weight row with the previous layer |
| NeuralNet.FillLayer | Source/NN_Maze/Private/NeuralNetwork.cpp:54-62 | after the loop, the layer holds `tanh` of each neuron's weighted sum, which is `Layer` of the previous layer |
| NeuralNet.LoadInputs | Source/NN_Maze/Private/NeuralNetwork.cpp:47-50 | after the copy loop, the input layer equals the inputs |
| NeuralNet.AdvanceLayer | Source/NN_Maze/Private/NeuralNetwork.cpp:52-63 | one pass of the layer loop: layer i takes its `Activation`, the layers below keep theirs, the layers above are untouched, and the buffer keeps its shape |
| NeuralNet.ForwardPass | Source/NN_Maze/Private/NeuralNetwork.cpp:47-63 | after the two loops, layer 0 holds the inputs and every layer holds its `Activation`; the buffer keeps its shape |
| NeuralNet.MayBecomeExactly | Source/NN_Maze/Private/NeuralNetwork.cpp:76-79 | the outcomes of mutating one weight, in both directions: a negative condition keeps it, a condition of 100 or more always replaces it, and otherwise it is kept or replaced by a value in [-1, 1] |
| NeuralNet.NegativeConditionKeepsWeights | Source/NN_Maze/Private/NeuralNetwork.cpp:68-83 | a mutation with a negative condition leaves every weight unchanged |
| NeuralNet.MutationBounds | Source/NN_Maze/Private/NeuralNetwork.cpp:68-83 | a mutation keeps weights in [-1, 1] when they started there, and with a condition of at least 100 every weight ends in [-1, 1] |
| NeuralNet.MutationKeepsShape | Source/NN_Maze/Private/NeuralNetwork.cpp:68-83 | a mutation never changes the shape of the weight array |
| NeuralNet.Network.constructor | Source/NN_Maze/Public/NeuralNetwork.h:21-28 | a new network has no layers, no neurons, no weights and zero fitness |
| NeuralNet.Network.Initialize | Source/NN_Maze/Private/NeuralNetwork.cpp:4-30 | afterwards the network is well shaped for the given layers, keeps the neuron values `SetNum` keeps, and every weight is in [-1, 1] |
| NeuralNet.Network.CopyWeights | Source/NN_Maze/Private/NeuralNetwork.cpp:32-37 | the layer sizes, neurons and weights become the source's, without a shape check |
| NeuralNet.Network.GetInputSize | Source/NN_Maze/Private/NeuralNetwork.cpp:85-88 | the width of the input layer, or 0 for a network without layers |
| NeuralNet.Network.FeedForward | Source/NN_Maze/Private/NeuralNetwork.cpp:39-66 | an input of the wrong width gives the empty array and changes nothing; otherwise every layer's neurons hold its `Activation`, and the output is the last layer, as wide as that layer and in [-1, 1] when there is a hidden or output layer |
| NeuralNet.Network.Mutate | Source/NN_Maze/Private/NeuralNetwork.cpp:68-83 | the new weights are a possible mutation of the old ones: same shape, and each weight kept or redrawn in [-1, 1] according to a roll against the condition |
| Population.SortByFitness | Source/NN_Maze/Private/EvolutionManager.cpp:27-30 | the sorted array is a permutation of the population with fitness non-increasing from the front |
| Population.PermutationKeepsDistinct | Source/NN_Maze/Private/MazeManager.cpp:191-193 | sorting a population without repeated networks leaves none |
| Population.FitnessesOfPermutation | Source/NN_Maze/Private/EvolutionManager.cpp:26-30 | a rearranged population has the same multiset of fitness values |
| Population.SumOfPermutation | Source/NN_Maze/Private/EvolutionManager.cpp:16-24 | the fitness sum does not depend on the order of the terms |
| Population.CloneMutated | Source/NN_Maze/Private/EvolutionManager.cpp:66-72 | the new network has the source's layers and neurons, a possible mutation of its weights at the given rate, and zero fitness; the source is untouched |
| Population.CloneKeepsShape | Source/NN_Maze/Private/MazeManager.cpp:202-226 | a clone of a well-shaped network is well shaped, with weights in [-1, 1] when the source's were |
| Bands.CDiv | Source/NN_Maze/Private/EvolutionManager.cpp:51 | C++ integer division: the quotient has the sign of the dividend; `Bands.TruncatedDivision` fixes its value |
| Bands.CMod | Source/NN_Maze/Private/EvolutionManager.cpp:52 | C++ remainder: it has the sign of the dividend and is smaller in magnitude than the divisor |
| Bands.TruncatedDivision | Source/NN_Maze/Private/EvolutionManager.cpp:51-52 | the C++ rule `(a / b) * b + a % b == a`, with a remainder of the dividend's sign and smaller than the divisor; this fixes both values, and the quotient is the one truncated toward zero |
| Bands.BandSize | Source/NN_Maze/Private/EvolutionManager.cpp:60 | `currentGroupSize` is never negative for a non-negative population, and never positive for a negative one |
| Bands.BandStart | Source/NN_Maze/Private/EvolutionManager.cpp:56-76 | `startIndex` as the loop advances it: never negative for a non-negative population, and never positive for a negative one |
| Bands.NegativePopulationHasNoBands | Source/NN_Maze/Private/EvolutionManager.cpp:51-61 | with a negative population every band size is at most zero, so no network is cloned |
| Bands.BandSizesBalanced | Source/NN_Maze/Private/EvolutionManager.cpp:50-60 | band sizes differ by at most one, and an earlier band is never smaller than a later one |
| Bands.BandStartClosedForm | Source/NN_Maze/Private/EvolutionManager.cpp:56-77 | band g starts at g * (P / G) + min(g, P % G) |
| Bands.BandsCoverPopulation | Source/NN_Maze/Private/EvolutionManager.cpp:56-77 | the bands together cover exactly the indices 0 .. PopulationSize - 1 |
| Bands.BandStartMonotone | Source/NN_Maze/Private/EvolutionManager.cpp:56-77 | a later band never starts before an earlier one |
| Bands.BandFrom | Source/NN_Maze/Private/EvolutionManager.cpp:56-77 | searching from band g finds a band at or after g that contains the index |
| Bands.BandOf | Source/NN_Maze/Private/EvolutionManager.cpp:56-77 | every index of the population lies inside some band |
| Bands.BandOfUnique | Source/NN_Maze/Private/EvolutionManager.cpp:56-77 | an index lies in only one band: the bands are disjoint |
| Evolution.Visited | Source/NN_Maze/Private/EvolutionManager.cpp:17-19 | the number of indices below PopulationSize that are valid in the array: never more than the array holds, nor more than PopulationSize |
| Evolution.MeanIgnoresOrder | Source/NN_Maze/Private/EvolutionManager.cpp:16-30 | when every network is counted, the mean taken before sorting equals the mean of the sorted population |
| Evolution.EvolutionManager.constructor | Source/NN_Maze/Private/EvolutionManager.cpp:4-11 | five groups, with rates 0.1, 0.3, 0.5, 2 and 9, one rate per group |
| Evolution.EvolutionManager.FitnessMean | Source/NN_Maze/Private/EvolutionManager.cpp:16-24 | the mean is the fitness sum over the valid indices below PopulationSize, divided by PopulationSize; it is the population's full sum divided by PopulationSize when all networks fit below it |
| Evolution.EvolutionManager.RepairConfiguration | Source/NN_Maze/Private/EvolutionManager.cpp:32-48 | a non-positive group count becomes 1; a rate table of the wrong length becomes that many copies of 0.1; afterwards there is one rate per group |
| Evolution.EvolutionManager.CloneBands | Source/NN_Maze/Private/EvolutionManager.cpp:50-77 | the next generation holds one fresh, distinct clone per valid ranked index below PopulationSize, in rank order, each mutated at the rate of the band that holds its index |
| Evolution.EvolutionManager.ProcessGeneration | Source/NN_Maze/Private/EvolutionManager.cpp:13-78 | the whole step: the mean over the unsorted input, the input ranked as a permutation, the configuration repaired, and the next generation as band clones of the ranked networks |
| Maze.Topology | Source/NN_Maze/Private/MazeManager.cpp:65 | the layer sizes 6, 8, 10, 6, 2 that every agent network is created with |
| Maze.BandRate | Source/NN_Maze/Private/MazeManager.cpp:207-225 | the rate of each band lies between 0.1 and 9 percent, and a band the switch does not name gets the default 0.1 |
| Maze.BandRatesAreEvolutionDefaults | Source/NN_Maze/Private/MazeManager.cpp:207-225 | the hard-coded rates of the five bands are the evolution manager's default rate table, and any other band gets 0.1 |
| Maze.Width | Source/NN_Maze/Private/MazeManager.cpp:198-200 | each band clones at most as many networks as the ranked array holds |
| Maze.BandClonesKeepTopology | Source/NN_Maze/Private/MazeManager.cpp:232-240 | distinct clones of agent networks are agent networks again, with the topology and weights in [-1, 1], so every one of them passes the validity check |
| Maze.NextGenerationSize | Source/NN_Maze/Private/MazeManager.cpp:195-230 | the next generation holds P - P % 5 networks, which equals P exactly when P is a multiple of 5 |
| Maze.SmallPopulationDiesOut | Source/NN_Maze/Private/MazeManager.cpp:195-230 | fewer than five agents, or an empty current generation, breed an empty generation |
| Maze.Scores | Source/NN_Maze/Private/MazeManager.cpp:175-186 | each scored index contributes its agent's fitness, or nothing when the agent is missing |
| Maze.Scored | Source/NN_Maze/Private/MazeManager.cpp:173-175 | the fitness loop scores only indices that are valid in both the agent array and the network array |
| Maze.TransferFitness | Source/NN_Maze/Private/MazeManager.cpp:172-188 | each scored network with an agent takes that agent's fitness, every other network keeps its own, and the total is the sum of the scores |
| Maze.CloneTopBands | Source/NN_Maze/Private/MazeManager.cpp:195-230 | five bands of fresh, distinct clones of the top PopulationSize / 5 ranked networks, in rank order, band i mutated at its hard-coded rate |
| Maze.EveryLayered | Source/NN_Maze/Private/MazeManager.cpp:232-240 | the validity loop passes exactly when every network of the next generation has layers |
| Maze.MazeManager.constructor | Source/NN_Maze/Private/MazeManager.cpp:7-18 | one agent, a 30-second time limit, generation 0, not training, all totals zero and both generations empty |
| Maze.MazeManager.CloseTimer | Source/NN_Maze/Private/MazeManager.cpp:52-57 | the generation count goes up by one, the simulations by PopulationSize, and training stops |
| Maze.MazeManager.InitAgentNetworks | Source/NN_Maze/Private/MazeManager.cpp:59-70 | PopulationSize fresh, distinct networks (none if it is not positive) with the 6-8-10-6-2 topology, six inputs, weights in [-1, 1] and zero fitness |
| Maze.MazeManager.AssignFitness | Source/NN_Maze/Private/MazeManager.cpp:172-189 | scored networks take their agents' fitness, and the mean is the sum of the scores divided by PopulationSize |
| Maze.MazeManager.RankCurrent | Source/NN_Maze/Private/MazeManager.cpp:191-193 | the current generation becomes a fittest-first permutation of itself and stays a valid agent population, weights in [-1, 1] included |
| Maze.MazeManager.ScoreAndRank | Source/NN_Maze/Private/MazeManager.cpp:172-193 | fitness is transferred to the old networks, the mean is taken over the scores, and the current generation is ranked |
| Maze.MazeManager.BreedAndSwap | Source/NN_Maze/Private/MazeManager.cpp:195-245 | NextGeneration becomes the five bands of fresh clones of the ranked generation; they always pass the validity check, so they become the current generation and training resumes |
| Maze.MazeManager.ProcessGeneration | Source/NN_Maze/Private/MazeManager.cpp:161-247 | generation 0 builds the initial population of fresh networks with weights in [-1, 1] and zero fitness; a later generation scores, ranks and replaces the population by band clones of the ranked networks; either way training resumes with a valid agent population |
| Maze.MazeManager.Tick | Source/NN_Maze/Private/MazeManager.cpp:29-50 | while training, only the simulated time advances; otherwise the time stays and the generation step runs, with its outcome stated as for ProcessGeneration: the first population with zero fitness, or fitness transfer, mean, ranking and band clones of the ranked networks; the installed networks are fresh, so Tick can be called again; the counters are untouched |

## Left out

- Agents, maze actors, physics, checkpoints, the player controller and the
  game mode: `CreateAgents`, `UpdateAgents`, `BeginPlay` and the agents'
  fitness computation are outside the model. An agent's fitness is an input
  of the generation step.
- Timers, `UE_LOG` and on-screen debug messages: they have no effect on the
  modelled state. A timer firing is a call of `CloseTimer`.
- Floating point: floats are reals, so there is no rounding, overflow or NaN.
- Evolution.EvolutionManager.ProcessGeneration: requires PopulationSize to be
  non-zero. The source then divides by zero and stores a NaN mean.
- Maze.MazeManager.ProcessGeneration: requires PopulationSize to be non-zero
  after generation 0, for the same reason. So do
  Maze.MazeManager.AssignFitness, Maze.MazeManager.ScoreAndRank and
  Maze.MazeManager.Tick.
- Maze.MazeManager.CloseTimer: does not model `int32` wrap-around of the
  generation and simulation counters. They are unbounded integers.
- NeuralNet.Squash: `tanh` is a parameter, and the model uses only that its
  values lie in [-1, 1].
- NeuralNet.FRandRange: the model draws from the closed range [lo, hi],
  which contains every value the engine's generator can return. Properties
  that hold for every outcome (bounds, shapes, unchanged weights) therefore
  also hold for the engine. Statements that some outcome is possible carry
  over only for values the generator can actually return: the `<==`
  direction of NeuralNet.MayBecomeExactly admits a redrawn weight of exactly
  -1.0 or 1.0, which the engine produces only if its generator can return
  the ends of the range. Nothing is modelled about the distribution.
- Null pointers: populations are sequences of existing network objects, so
  the null checks at EvolutionManager.cpp:19 and :64 and MazeManager.cpp:181,
  :200 and :235 always pass and are not modelled. In `AMazeManager` this is
  exact: `CurrentGeneration` is filled only by `InitAgentNetworks`
  (MazeManager.cpp:68) and the gated swap (:242), `NextGeneration` only by
  the breeding loop (:227), and every entry comes from `NewObject`, which
  never yields null. For
  `UEvolutionManager::ProcessGeneration`, whose arrays come from its caller,
  a caller that passes null entries is not modelled.
- Evolution.EvolutionManager.ProcessGeneration: requires every network of the
  current generation to have at least one layer and no negative width. The
  source needs this only of the networks it clones.
- Evolution.EvolutionManager.CloneBands: requires the same of every ranked
  network, for the same reason.
- Maze.CloneTopBands: requires the same of every ranked network. The source
  needs it only of the cloned top networks.
- NeuralNet.Network.Initialize: requires at least one layer and no negative
  width. With no layers the source resizes the weight array to -1, and
  `SetNum` rejects a negative count before the empty-layers error at
  NeuralNetwork.cpp:26-29 is logged.
- NeuralNet.Network.FeedForward: requires an initialised, well-shaped network.
  On a network without layers, an empty input passes the width check and the
  source then reads `Neurons.Last()` of an empty array. The header declares
  `FeedForward` const, but the definition writes the neuron buffer, and the
  model follows the definition.
- Population.SortByFitness: an insertion sort stands in for the engine's
  `TArray::Sort`. Only the result's order and the fact that it is a
  permutation are specified. The order among equal fitness values is not
  specified, because `TArray::Sort` is not stable.
- `UEvolutionManager::ProcessGeneration` sorts the caller's array in place and
  refills the caller's `NextGeneration` array. The model returns both arrays
  instead.
- Maze.MazeManager.ProcessGeneration: under the model's invariant every
  network of the next generation passes the validity check, so the early
  return of MazeManager.cpp:235-239 is never taken. The check itself, with
  both outcomes, is Maze.EveryLayered.
- The manager fields that only feed the omitted parts (`StartPosition`, the
  agent class, the timer handle) are not modelled, nor are
  `NetworkLayerConfiguration` and `EvolutionManager` (MazeManager.h:39, :42),
  which MazeManager.cpp never reads. The agent topology is the one hard-coded
  at MazeManager.cpp:65, modelled as Maze.Topology, not taken from
  `NetworkLayerConfiguration`. `TimeLimit` is kept as the
  constructor sets it; only the omitted timer reads it.
