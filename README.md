# Genetic PID tuner

This project models `GeneticTuner`, a genetic-algorithm tuner for PID gains, in Dafny. A
candidate controller (an *agent*) is its gain triple `(Kp, Ki, Kd)` over `real`. A
population is a sequence of agents. One generation of `step` does the following:

1. It scores every agent.
2. If some score is negative, it shifts the scores so the smallest becomes `1e-6`.
3. It normalises the scores into selection weights.
4. It draws parent pairs by weight.
5. It replaces the population with the parents' midpoints, mutated gene by gene.

Files:

- `rng.dfy` (module `Rng`) models Python's global generator behind `random.random()`. It is an
  oracle: a fixed stream of draws `draw: nat -> real` and a cursor. Construction, the default
  fitness `__fitness` and mutation all consume this one stream in program order. Agent `i` is
  built from three draws. A score takes two draws, `u1 * 100 - u2 * 100`. Mutating a gene takes
  a test draw, then a replacement draw only when the test draw is below the mutation probability.
- `genetic.dfy` (module `Genetic`) holds the agents and the pure parts as functions with lemmas:
  crossover, mutation as a function of the draws, the shift, normalisation, and the whole
  generation loop `Evolve`. It also holds the class `GeneticTuner`, whose fields are those of the
  Python object. Its methods are proved against those functions.
  - `ShiftInPlace` does the `-=` / `+=` on the numpy array in place on an `array<real>`.
  - `Step` runs the `for` loop of `step`.

Modelling decisions:

- **Parent draw.** numpy's global generator is separate from Python's. It is the class
  `Sampler`: an oracle `Chooser` and a count of the calls so far. Given the weights and that
  count, the oracle returns the parent pairs of one `np.random.choice`. The only thing required of
  it (`ValidChooser`) is that it returns `population_size` pairs of in-range indices. A call
  that raises on invalid weights makes no draw.
- **Fitness source.** `step` scores agents with the private noise `__fitness`, never with the
  stored `fitness_function` (`src/aptavia/tuners/genetic.py:95`). The model does the same:
  `Evolve`, `RunGeneration` and `Step` use `NoiseVector`. The stored function only lives in the
  `fitnessFunction` field. The per-generation lemmas about `Generation` hold for any fitness
  vector, so they would carry over to a real scoring function.
- **Assertions.** The `assert`s of `set_population` and `step` become a `Status` result. A failed
  check leaves the state and the generator untouched.
- **Zero-sum weights.** When the weights sum to zero, `x / x.sum()` gives NaN, or an empty vector
  for an empty population. `np.random.choice` then raises `ValueError`. The model reports this as
  `Failed(DegenerateFitness)`:
  - the population stays as the previous generation left it;
  - the draws used for scoring stay consumed;
  - `SelectionDegenerateIff` proves this happens exactly when every score is zero.
- **Negative size.** A negative `population_size` builds no agents, as `range` does.

## Model

| member | source | states |
|---|---|---|
| Rng.Random.Next | src/aptavia/tuners/genetic.py:25-26 | one `random.random()` returns the next draw of the stream and advances the cursor by one |
| Genetic.InitialPopulation | src/aptavia/tuners/genetic.py:25-26 | the initial population has exactly n agents; when draws lie in [0, 1) every gain lies in [0, 1) |
| Genetic.NoiseFitness | src/aptavia/tuners/genetic.py:64-65 | the default fitness lies strictly between -100 and 100 whatever the agent |
| Genetic.NoiseVector | src/aptavia/tuners/genetic.py:95 | the fitness vector has one score per agent, each strictly between -100 and 100 |
| Genetic.MutatedGene | src/aptavia/tuners/genetic.py:70 | one gene uses its test draw and, exactly when that draw is below the probability, the next draw too, which then becomes the gene; otherwise the gene is kept |
| Genetic.Mutated | src/aptavia/tuners/genetic.py:67-75 | `__mutate` uses three to six draws, and uses exactly three only when it returns the agent unchanged |
| Genetic.MutationOldOrFresh | src/aptavia/tuners/genetic.py:68-73 | every gene of a mutated agent is its old value or a value in [0, 1) |
| Genetic.MutationNeverFires | src/aptavia/tuners/genetic.py:68-73 | with mutation probability at most 0 the agent is unchanged and exactly three draws are used |
| Genetic.MutationAlwaysFires | src/aptavia/tuners/genetic.py:68-73 | with mutation probability at least 1 every gene is replaced by the draw after its test draw, so all gains land in [0, 1) |
| Genetic.MutatedAll | src/aptavia/tuners/genetic.py:109 | mutating the children keeps their number |
| Genetic.MutatedAllOldOrFresh | src/aptavia/tuners/genetic.py:109 | each mutated child keeps, gene by gene, its old value or takes a value in [0, 1) |
| Genetic.MutatedAllNeverFires | src/aptavia/tuners/genetic.py:109 | with probability at most 0 the children come out unchanged after three draws each |
| Genetic.MutatedAllDrawCount | src/aptavia/tuners/genetic.py:109 | mutating k children uses between 3k and 6k draws |
| Genetic.MutatedAllEach | src/aptavia/tuners/genetic.py:109 | each mutated child is `__mutate` of the child at the same position, from some draw on |
| Genetic.MutatedAllKeepsUnit | src/aptavia/tuners/genetic.py:109 | children with gains in [0, 1) keep them there through mutation |
| Genetic.Crossover | src/aptavia/tuners/genetic.py:77-80 | each gain of the child lies as far from one parent's gain as from the other's (the midpoint) |
| Genetic.CrossoverSymmetric | src/aptavia/tuners/genetic.py:77-80 | crossover does not depend on the order of the parents |
| Genetic.CrossoverBetween | src/aptavia/tuners/genetic.py:77-80 | each gain of the child lies between the two parents' gains |
| Genetic.CrossoverExample | src/aptavia/tuners/genetic.py:77-80 | parents (1, 2, 3) and (5, 6, 7) give the child (3, 4, 5) |
| Genetic.Offspring | src/aptavia/tuners/genetic.py:107 | one child per drawn parent pair |
| Genetic.OffspringAreChildren | src/aptavia/tuners/genetic.py:104-107 | every child is the crossover of two members of the population at in-range indices |
| Genetic.OffspringWithin | src/aptavia/tuners/genetic.py:107 | crossover never leaves an interval holding all the population's gains |
| Genetic.OffspringKeepsUnit | src/aptavia/tuners/genetic.py:107 | children of parents with gains in [0, 1) have gains in [0, 1) |
| Genetic.AnyNegative | src/aptavia/tuners/genetic.py:99 | some score is negative exactly when the vector is not empty and its minimum is negative |
| Genetic.Min | src/aptavia/tuners/genetic.py:100 | the minimum is one of the scores and no score is below it |
| Genetic.Shifted | src/aptavia/tuners/genetic.py:99-101 | the shift keeps the length of the fitness vector |
| Genetic.ShiftedWhenNegative | src/aptavia/tuners/genetic.py:99-101 | when some score is negative, the shifted minimum is exactly 1e-6 and every weight is at least 1e-6 |
| Genetic.ShiftedWhenNonNegative | src/aptavia/tuners/genetic.py:99 | when no score is negative the vector is left unchanged |
| Genetic.ShiftedKeepsDifferences | src/aptavia/tuners/genetic.py:99-101 | the shift keeps every difference between two scores |
| Genetic.Sum | src/aptavia/tuners/genetic.py:83 | the sum of nonnegative weights is nonnegative |
| Genetic.SumOfNonNegative | src/aptavia/tuners/genetic.py:83 | a sum of nonnegative weights is nonnegative, and zero exactly when every weight is zero |
| Genetic.Scale | src/aptavia/tuners/genetic.py:83 | dividing by a nonzero total keeps the length |
| Genetic.SumScaled | src/aptavia/tuners/genetic.py:83 | dividing every weight by c divides the sum by c |
| Genetic.Normalize | src/aptavia/tuners/genetic.py:82-83 | normalisation fails exactly when the weights sum to zero, and otherwise keeps the length |
| Genetic.NormalizeIsDistribution | src/aptavia/tuners/genetic.py:82-83 | nonnegative weights with a positive sum normalise to nonnegative weights that sum to 1 |
| Genetic.SelectionDegenerateIff | src/aptavia/tuners/genetic.py:99-105 | the selection weights are missing (the parent draw raises) exactly when every score is zero |
| Genetic.SelectionIsDistribution | src/aptavia/tuners/genetic.py:97-103 | whenever the weights exist they sum to 1 and are nonnegative, and all are strictly positive when some score was negative |
| Genetic.Generation | src/aptavia/tuners/genetic.py:97-109 | a scored generation keeps the size of the population |
| Genetic.Evolve | src/aptavia/tuners/genetic.py:93-109 | a run of generations keeps the size of the population |
| Genetic.ScoreThenRun | src/aptavia/tuners/genetic.py:95 | scoring a generation, breeding it and running on keeps the size of the population |
| Genetic.GenerationThenRun | src/aptavia/tuners/genetic.py:97-109 | a scored generation followed by the rest of the run keeps the size of the population |
| Genetic.EvolveOne | src/aptavia/tuners/genetic.py:93-109 | a run of one generation scores with the noise fitness, using two draws per agent, then breeds from those scores |
| Genetic.EvolveSplit | src/aptavia/tuners/genetic.py:93 | n > 0 generations are one generation and then, unless it was degenerate, n - 1 more from the population and draw it left |
| Genetic.GenerationBreedsFromParents | src/aptavia/tuners/genetic.py:104-109 | a generation that breeds yields exactly the mutation of the offspring of some `population_size` in-range parent pairs; agent by agent, each new agent is `__mutate` applied to the midpoint of two members of the previous population |
| Genetic.GenerationWithoutMutation | src/aptavia/tuners/genetic.py:104-109 | with probability 0 every new agent is exactly the midpoint of two previous agents |
| Genetic.GenerationDegenerateIff | src/aptavia/tuners/genetic.py:99-105 | a generation is degenerate exactly when all scores are zero; it then leaves the population and both generators alone |
| Genetic.GenerationKeepsUnit | src/aptavia/tuners/genetic.py:104-109 | a generation keeps gains in [0, 1) |
| Genetic.GenerationWithin | src/aptavia/tuners/genetic.py:104-109 | without mutation a generation keeps gains inside any interval holding the previous population's gains |
| Genetic.GenerationDrawCount | src/aptavia/tuners/genetic.py:104-109 | after scoring, a breeding generation makes one parent draw and uses 3 to 6 draws per agent; a degenerate one makes no draw at all |
| Genetic.EvolveDrawCount | src/aptavia/tuners/genetic.py:93-109 | a run of n generations without degenerate fitness performs all n: it draws parents exactly n times and uses between 5 and 8 draws per agent per generation |
| Genetic.EvolveKeepsUnit | src/aptavia/tuners/genetic.py:93-109 | gains starting in [0, 1) stay there for any number of generations |
| Genetic.EvolveWithoutMutationStaysWithin | src/aptavia/tuners/genetic.py:93-109 | with probability 0, no gain ever leaves an interval holding the starting population's gains |
| Genetic.Sampler.Choice | src/aptavia/tuners/genetic.py:104-105 | one parent draw returns the oracle's pairs for these weights and this call count, and counts the call |
| Genetic.ShiftInPlace | src/aptavia/tuners/genetic.py:99-101 | the in-place `-=` and `+=` on the fitness array leave it holding the shifted vector |
| Genetic.GeneticTuner.constructor | src/aptavia/tuners/genetic.py:20-27 | with the defaults 100, 0.2 and no function, stores size and probability, builds max(0, size) agents from three draws each, and installs the noise fitness when no function is given |
| Genetic.GeneticTuner.SetPopulationSize | src/aptavia/tuners/genetic.py:29-35 | changes only the recorded size; the population is not resized |
| Genetic.GeneticTuner.SetMutationProbability | src/aptavia/tuners/genetic.py:37-44 | changes only the mutation probability |
| Genetic.GeneticTuner.SetPopulation | src/aptavia/tuners/genetic.py:46-53 | succeeds exactly when the length matches the recorded size and then replaces the population; otherwise fails and changes nothing |
| Genetic.GeneticTuner.SetFitnessFunction | src/aptavia/tuners/genetic.py:55-62 | stores the given function (or `None`) and changes nothing else |
| Genetic.GeneticTuner.Fitness | src/aptavia/tuners/genetic.py:64-65 | the private fitness is the noise score of the next two draws, whatever the agent |
| Genetic.GeneticTuner.MutateGene | src/aptavia/tuners/genetic.py:70 | the test draw comes first; the gene is replaced by the next draw exactly when the test draw is below the probability |
| Genetic.GeneticTuner.Mutate | src/aptavia/tuners/genetic.py:67-75 | `__mutate` rewrites Kp, Ki, Kd in that order as the mutation function says |
| Genetic.GeneticTuner.Evaluate | src/aptavia/tuners/genetic.py:95 | the loop of scores yields the noise vector and uses two draws per agent |
| Genetic.GeneticTuner.MutateAll | src/aptavia/tuners/genetic.py:109 | mutating the children in order agrees with the mutation function, draw for draw |
| Genetic.GeneticTuner.Breed | src/aptavia/tuners/genetic.py:97-109 | shifting in place, normalising, drawing parents, crossing over and mutating yield the scored generation |
| Genetic.GeneticTuner.RunGeneration | src/aptavia/tuners/genetic.py:93-109 | one pass of the loop body is one generation of `Evolve` |
| Genetic.GeneticTuner.Step | src/aptavia/tuners/genetic.py:85-109 | with num_generations defaulting to 1, fails without change when num_generations <= 0 or the population's length differs from the recorded size; otherwise leaves the population, the `random.random()` cursor and numpy's call count exactly as `Evolve` over num_generations generations does, and fails only on degenerate fitness; the length is always kept |
| Genetic.ResizedTunerRefusesToStep | src/aptavia/tuners/genetic.py:91-92 | for any tuner, after the recorded size is set to anything other than the population's length, `step` with any positive count fails its size check and leaves the population and both generators untouched |
| Genetic.DefaultTuner | src/aptavia/tuners/genetic.py:20-27 | with the default arguments a tuner holds 100 agents built from 300 draws, mutation probability 0.2 and the noise fitness |

## Left out

- The `simple_pid.PID` controller's runtime behaviour is not modelled. An agent is only its `tunings` triple.
- The statistics of the random sources are left out: the uniformity of `random.random()`, the
  noise distribution of `__fitness`, and the claim that `np.random.choice` samples according to
  the weights. Draws are an oracle stream that lemmas may require to lie in [0, 1). Parent
  pairs are an oracle whose only requirement is that it returns in-range indices.
- IEEE float rounding is not modelled; gains and scores are exact reals. numpy's tolerance check
  on the weights' sum and the NaN that `x / x.sum()` yields for a zero sum are left out. The zero
  sum becomes the error `DegenerateFitness`.
- The stored `fitness_function` is never called by `step`, so it is kept only as a value, not as
  code to run.
- Python run with `-O` drops `assert`s. That mode is not modelled: the assertions always fail the call.
- `__mutate` overwrites `agent.tunings` on an object and returns that object. The model returns a
  new agent value. Every child comes fresh from crossover, so no aliasing is lost.
- `__normalize` is `Normalize` applied to the shifted vector, which `Breed` reads back from the
  array. Division by a zero sum is the error above.
- The lack of elitism is not stated as a lemma. The best score may drop between generations; the
  model does not claim otherwise.
