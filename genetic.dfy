/** A genetic-algorithm tuner for the gains (Kp, Ki, Kd) of a PID controller.

    The pure part of the algorithm (crossover, the shift of the fitness
    vector, its normalisation, and the whole generation loop as a function of
    the random draws) is given as functions with lemmas; the class
    `GeneticTuner` holds the tuner's fields and its methods are proved
    against those functions.

    Randomness comes from two sources: the stream of `random.random()` draws
    (`Rng.Random`), consumed in program order by construction, by the noise
    fitness and by mutation; and numpy's weighted parent draw, given as an
    oracle `Chooser`.
 */
module Genetic {
  import opened Rng

  // ---------------------------------------------------------------------
  // Data
  // ---------------------------------------------------------------------

  /** One candidate controller: the `tunings` triple of a `simple_pid.PID`. */
  datatype Agent = Agent(kp: real, ki: real, kd: real)

  /** The two parents drawn for one child, as indices into the population. */
  datatype Parents = Parents(first: nat, second: nat)

  /** A value computed from the draws starting at some position, together
      with the position of the first draw left unused. */
  datatype Drawn<T> = Drawn(value: T, next: nat)

  datatype Option<T> = None | Some(value: T)

  /** The stored `fitness_function`: `Noise` is the private `__fitness`
      installed when the constructor gets no function, `Absent` the `None`
      that the setter stores as it is. */
  datatype FitnessFunction = Noise | Custom(score: Agent -> real) | Absent

  /** The failures of the tuner's operations: the two `assert`s of `step`,
      the `assert` of `set_population`, and the `ValueError` that
      `np.random.choice` raises when the selection weights are not a
      probability distribution. */
  datatype StepError = NonPositiveGenerations | PopulationSizeMismatch | DegenerateFitness

  datatype Status = Ok | Failed(error: StepError)

  /** The state of a run of generations: the population, the next unused
      `random.random()` draw, the number of parent draws made so far, and
      whether a generation stopped on degenerate fitness. */
  datatype Run = Run(population: seq<Agent>, next: nat, choices: nat, degenerate: bool)

  /** numpy's `np.random.choice(population, size=(n, 2), p=weights)` as an
      oracle: given the weights and the number of earlier calls, the parent
      pairs it returns. numpy's generator is separate from Python's. */
  type Chooser = (seq<real>, nat) -> seq<Parents>

  /** The constant added after the shift so that every weight is positive. */
  const Epsilon: real := 0.000001

  // ---------------------------------------------------------------------
  // Ranges of gains
  // ---------------------------------------------------------------------

  predicate InUnit(x: real)
  {
    0.0 <= x < 1.0
  }

  ghost predicate UnitAgent(a: Agent)
  {
    InUnit(a.kp) && InUnit(a.ki) && InUnit(a.kd)
  }

  ghost predicate UnitPopulation(pop: seq<Agent>)
  {
    forall i :: 0 <= i < |pop| ==> UnitAgent(pop[i])
  }

  ghost predicate AgentWithin(a: Agent, lo: real, hi: real)
  {
    lo <= a.kp <= hi && lo <= a.ki <= hi && lo <= a.kd <= hi
  }

  ghost predicate PopulationWithin(pop: seq<Agent>, lo: real, hi: real)
  {
    forall i :: 0 <= i < |pop| ==> AgentWithin(pop[i], lo, hi)
  }

  // ---------------------------------------------------------------------
  // Construction
  // ---------------------------------------------------------------------

  /** The initial population: agent i is built from three consecutive draws,
      taken as Kp, Ki, Kd in that order. */
  function InitialPopulation(n: nat, draw: nat -> real, at: nat): (pop: seq<Agent>)
    ensures |pop| == n
    ensures UnitDraws(draw) ==> UnitPopulation(pop)
  {
    seq(n, i requires 0 <= i < n => Agent(draw(at + 3 * i), draw(at + 3 * i + 1), draw(at + 3 * i + 2)))
  }

  // ---------------------------------------------------------------------
  // Fitness
  // ---------------------------------------------------------------------

  /** The private `__fitness`: two draws scaled by 100 and subtracted. The
      agent plays no part in it. */
  function NoiseFitness(draw: nat -> real, at: nat): (f: real)
    ensures UnitDraws(draw) ==> -100.0 < f < 100.0
  {
    draw(at) * 100.0 - draw(at + 1) * 100.0
  }

  /** The fitness of a population of n agents, scored in order. */
  function NoiseVector(n: nat, draw: nat -> real, at: nat): (f: seq<real>)
    ensures |f| == n
    ensures UnitDraws(draw) ==> forall i :: 0 <= i < n ==> -100.0 < f[i] < 100.0
  {
    seq(n, i requires 0 <= i < n => NoiseFitness(draw, at + 2 * i))
  }

  // ---------------------------------------------------------------------
  // Mutation
  // ---------------------------------------------------------------------

  /** One gene of `__mutate`: the test draw is taken first; when it is below
      p, the next draw replaces the gene. */
  function MutatedGene(k: real, p: real, draw: nat -> real, at: nat): (r: Drawn<real>)
    ensures at + 1 <= r.next <= at + 2
    ensures r.next == at + 2 <==> draw(at) < p
    ensures r.value == if r.next == at + 1 then k else draw(at + 1)
  {
    if draw(at) < p then Drawn(draw(at + 1), at + 2) else Drawn(k, at + 1)
  }

  /** `__mutate` on one agent: Kp, Ki and Kd in turn. It uses three to six
      draws, and exactly three only when no gene is replaced. */
  function Mutated(a: Agent, p: real, draw: nat -> real, at: nat): (r: Drawn<Agent>)
    ensures at + 3 <= r.next <= at + 6
    ensures r.next == at + 3 ==> r.value == a
  {
    var kp := MutatedGene(a.kp, p, draw, at);
    var ki := MutatedGene(a.ki, p, draw, kp.next);
    var kd := MutatedGene(a.kd, p, draw, ki.next);
    Drawn(Agent(kp.value, ki.value, kd.value), kd.next)
  }

  /** Each gene of the mutated agent is the old gene or a draw in [0, 1). */
  ghost predicate OldOrFresh(a: Agent, m: Agent)
  {
    (m.kp == a.kp || InUnit(m.kp)) && (m.ki == a.ki || InUnit(m.ki)) && (m.kd == a.kd || InUnit(m.kd))
  }

  lemma MutationOldOrFresh(a: Agent, p: real, draw: nat -> real, at: nat)
    requires UnitDraws(draw)
    ensures OldOrFresh(a, Mutated(a, p, draw, at).value)
  {
  }

  /** With probability 0 (or below) no test draw succeeds: the agent is
      unchanged and exactly three draws are used. */
  lemma MutationNeverFires(a: Agent, p: real, draw: nat -> real, at: nat)
    requires UnitDraws(draw) && p <= 0.0
    ensures Mutated(a, p, draw, at) == Drawn(a, at + 3)
  {
  }

  /** With probability 1 (or above) every gene is replaced by the draw that
      follows its test draw. */
  lemma MutationAlwaysFires(a: Agent, p: real, draw: nat -> real, at: nat)
    requires UnitDraws(draw) && 1.0 <= p
    ensures Mutated(a, p, draw, at) == Drawn(Agent(draw(at + 1), draw(at + 3), draw(at + 5)), at + 6)
    ensures UnitAgent(Mutated(a, p, draw, at).value)
  {
  }

  /** `map(self.__mutate, population)`: the agents are mutated in order,
      each starting at the draw where the previous one stopped. */
  function MutatedAll(children: seq<Agent>, p: real, draw: nat -> real, at: nat): (r: Drawn<seq<Agent>>)
    ensures |r.value| == |children|
    decreases |children|
  {
    if children == [] then Drawn([], at)
    else
      var front := MutatedAll(children[..|children| - 1], p, draw, at);
      var last := Mutated(children[|children| - 1], p, draw, front.next);
      Drawn(front.value + [last.value], last.next)
  }

  lemma {:induction false} MutatedAllOldOrFresh(children: seq<Agent>, p: real, draw: nat -> real, at: nat)
    requires UnitDraws(draw)
    ensures forall j :: 0 <= j < |children| ==> OldOrFresh(children[j], MutatedAll(children, p, draw, at).value[j])
    decreases |children|
  {
    if children != [] {
      var n := |children| - 1;
      var front := MutatedAll(children[..n], p, draw, at);
      MutatedAllOldOrFresh(children[..n], p, draw, at);
      MutationOldOrFresh(children[n], p, draw, front.next);
      var r := MutatedAll(children, p, draw, at);
      forall j | 0 <= j < |children|
        ensures OldOrFresh(children[j], r.value[j])
      {
        if j < n {
          assert children[..n][j] == children[j];
        }
      }
    }
  }

  /** With probability 0 mutation leaves every child as it is and uses three
      draws per child. */
  lemma {:induction false} MutatedAllNeverFires(children: seq<Agent>, p: real, draw: nat -> real, at: nat)
    requires UnitDraws(draw) && p <= 0.0
    ensures MutatedAll(children, p, draw, at) == Drawn(children, at + 3 * |children|)
    decreases |children|
  {
    if children != [] {
      var n := |children| - 1;
      MutatedAllNeverFires(children[..n], p, draw, at);
      MutationNeverFires(children[n], p, draw, at + 3 * n);
      assert children[..n] + [children[n]] == children;
    }
  }

  /** Mutating k children uses between 3k and 6k draws. */
  lemma {:induction false} MutatedAllDrawCount(children: seq<Agent>, p: real, draw: nat -> real, at: nat)
    ensures at + 3 * |children| <= MutatedAll(children, p, draw, at).next <= at + 6 * |children|
    decreases |children|
  {
    if children != [] {
      var n := |children| - 1;
      MutatedAllDrawCount(children[..n], p, draw, at);
      var front := MutatedAll(children[..n], p, draw, at);
      assert MutatedAll(children, p, draw, at).next == Mutated(children[n], p, draw, front.next).next;
    }
  }

  /** m is `__mutate` applied to a, starting at some draw. */
  ghost predicate MutatedFrom(m: Agent, a: Agent, p: real, draw: nat -> real)
  {
    exists pos: nat :: m == Mutated(a, p, draw, pos).value
  }

  /** Each mutated child is its own child passed through `__mutate`, from
      the draw where the mutation of the children before it stopped. */
  lemma {:induction false} MutatedAllEach(children: seq<Agent>, p: real, draw: nat -> real, at: nat)
    ensures forall j :: 0 <= j < |children| ==>
      MutatedFrom(MutatedAll(children, p, draw, at).value[j], children[j], p, draw)
    decreases |children|
  {
    if children != [] {
      var n := |children| - 1;
      var front := MutatedAll(children[..n], p, draw, at);
      MutatedAllEach(children[..n], p, draw, at);
      var r := MutatedAll(children, p, draw, at);
      forall j | 0 <= j < |children|
        ensures MutatedFrom(r.value[j], children[j], p, draw)
      {
        if j < n {
          assert children[..n][j] == children[j];
          assert MutatedFrom(front.value[j], children[..n][j], p, draw);
          var pos: nat :| front.value[j] == Mutated(children[j], p, draw, pos).value;
          assert r.value[j] == Mutated(children[j], p, draw, pos).value;
        } else {
          assert r.value[j] == Mutated(children[j], p, draw, front.next).value;
        }
      }
    }
  }

  lemma MutatedAllKeepsUnit(children: seq<Agent>, p: real, draw: nat -> real, at: nat)
    requires UnitDraws(draw) && UnitPopulation(children)
    ensures UnitPopulation(MutatedAll(children, p, draw, at).value)
  {
    MutatedAllOldOrFresh(children, p, draw, at);
  }

  // ---------------------------------------------------------------------
  // Crossover
  // ---------------------------------------------------------------------

  /** `__crossover`: the child's gains are the elementwise midpoint of its
      parents' gains, so each lies as far from one parent as from the other. */
  function Crossover(a: Agent, b: Agent): (c: Agent)
    ensures c.kp - a.kp == b.kp - c.kp
    ensures c.ki - a.ki == b.ki - c.ki
    ensures c.kd - a.kd == b.kd - c.kd
  {
    Agent((a.kp + b.kp) * 0.5, (a.ki + b.ki) * 0.5, (a.kd + b.kd) * 0.5)
  }

  lemma CrossoverSymmetric(a: Agent, b: Agent)
    ensures Crossover(a, b) == Crossover(b, a)
  {
  }

  /** Each gain of the child lies between the two parents' gains. */
  lemma CrossoverBetween(a: Agent, b: Agent)
    ensures var c := Crossover(a, b);
      (a.kp <= c.kp <= b.kp || b.kp <= c.kp <= a.kp) &&
      (a.ki <= c.ki <= b.ki || b.ki <= c.ki <= a.ki) &&
      (a.kd <= c.kd <= b.kd || b.kd <= c.kd <= a.kd)
  {
  }

  lemma CrossoverExample()
    ensures Crossover(Agent(1.0, 2.0, 3.0), Agent(5.0, 6.0, 7.0)) == Agent(3.0, 4.0, 5.0)
  {
  }

  ghost predicate ParentsInRange(pairs: seq<Parents>, n: nat)
  {
    forall j :: 0 <= j < |pairs| ==> pairs[j].first < n && pairs[j].second < n
  }

  /** `map(lambda x: self.__crossover(x[0], x[1]), parents)`. */
  function Offspring(pop: seq<Agent>, pairs: seq<Parents>): (children: seq<Agent>)
    requires ParentsInRange(pairs, |pop|)
    ensures |children| == |pairs|
  {
    seq(|pairs|, j requires 0 <= j < |pairs| => Crossover(pop[pairs[j].first], pop[pairs[j].second]))
  }

  /** The child is the midpoint of two members of the population. */
  ghost predicate IsChildOf(c: Agent, pop: seq<Agent>)
  {
    exists i, k :: 0 <= i < |pop| && 0 <= k < |pop| && c == Crossover(pop[i], pop[k])
  }

  lemma OffspringAreChildren(pop: seq<Agent>, pairs: seq<Parents>)
    requires ParentsInRange(pairs, |pop|)
    ensures forall j :: 0 <= j < |pairs| ==> IsChildOf(Offspring(pop, pairs)[j], pop)
  {
    forall j | 0 <= j < |pairs|
      ensures IsChildOf(Offspring(pop, pairs)[j], pop)
    {
      var i, k := pairs[j].first, pairs[j].second;
      assert Offspring(pop, pairs)[j] == Crossover(pop[i], pop[k]);
    }
  }

  /** Crossover never leaves the range spanned by the population's gains. */
  lemma OffspringWithin(pop: seq<Agent>, pairs: seq<Parents>, lo: real, hi: real)
    requires ParentsInRange(pairs, |pop|) && PopulationWithin(pop, lo, hi)
    ensures PopulationWithin(Offspring(pop, pairs), lo, hi)
  {
    forall j | 0 <= j < |pairs|
      ensures AgentWithin(Offspring(pop, pairs)[j], lo, hi)
    {
      assert AgentWithin(pop[pairs[j].first], lo, hi);
      assert AgentWithin(pop[pairs[j].second], lo, hi);
    }
  }

  lemma OffspringKeepsUnit(pop: seq<Agent>, pairs: seq<Parents>)
    requires ParentsInRange(pairs, |pop|) && UnitPopulation(pop)
    ensures UnitPopulation(Offspring(pop, pairs))
  {
    forall j | 0 <= j < |pairs|
      ensures UnitAgent(Offspring(pop, pairs)[j])
    {
      assert UnitAgent(pop[pairs[j].first]);
      assert UnitAgent(pop[pairs[j].second]);
    }
  }

  // ---------------------------------------------------------------------
  // Selection weights
  // ---------------------------------------------------------------------

  /** `np.any(x < 0)`: some score is negative exactly when the vector is
      not empty and its minimum is negative. */
  predicate AnyNegative(f: seq<real>)
    ensures AnyNegative(f) <==> |f| > 0 && Min(f) < 0.0
  {
    exists i :: 0 <= i < |f| && f[i] < 0.0
  }

  /** `x.min()`. */
  function Min(f: seq<real>): (m: real)
    requires |f| > 0
    ensures exists i :: 0 <= i < |f| && f[i] == m
    ensures forall i :: 0 <= i < |f| ==> m <= f[i]
  {
    if |f| == 1 then f[0]
    else
      var rest := Min(f[1..]);
      assert forall i :: 1 <= i < |f| ==> f[i] == f[1..][i - 1];
      if f[0] <= rest then f[0] else rest
  }

  /** The shift of `step`: when some fitness is negative, subtract the
      minimum and add `Epsilon`; otherwise leave the vector alone. */
  function Shifted(f: seq<real>): (g: seq<real>)
    ensures |g| == |f|
  {
    if AnyNegative(f) then seq(|f|, i requires 0 <= i < |f| => f[i] - Min(f) + Epsilon)
    else f
  }

  /** When some fitness is negative, the shifted minimum is exactly `Epsilon`
      and every weight is at least `Epsilon`. */
  lemma ShiftedWhenNegative(f: seq<real>)
    requires AnyNegative(f)
    ensures Min(Shifted(f)) == Epsilon
    ensures forall i :: 0 <= i < |f| ==> Shifted(f)[i] >= Epsilon
  {
    var g := Shifted(f);
    assert forall i :: 0 <= i < |f| ==> g[i] == f[i] - Min(f) + Epsilon;
    assert forall i :: 0 <= i < |f| ==> g[i] >= Epsilon;
    var k :| 0 <= k < |f| && f[k] == Min(f);
    assert g[k] == Epsilon;
    var j :| 0 <= j < |g| && g[j] == Min(g);
    assert Min(g) <= g[k];
  }

  lemma ShiftedWhenNonNegative(f: seq<real>)
    requires !AnyNegative(f)
    ensures Shifted(f) == f
  {
  }

  /** The shift keeps the differences between fitness values. */
  lemma ShiftedKeepsDifferences(f: seq<real>)
    ensures forall i, j :: 0 <= i < |f| && 0 <= j < |f| ==> Shifted(f)[i] - Shifted(f)[j] == f[i] - f[j]
  {
  }

  /** `x.sum()`: nonnegative whenever every weight is. */
  function Sum(w: seq<real>): (s: real)
    ensures (forall i :: 0 <= i < |w| ==> w[i] >= 0.0) ==> s >= 0.0
  {
    if w == [] then 0.0
    else
      assert forall i :: 1 <= i < |w| ==> w[1..][i - 1] == w[i];
      w[0] + Sum(w[1..])
  }

  /** A sum of nonnegative weights is nonnegative, and zero exactly when
      every weight is zero. */
  lemma {:induction false} SumOfNonNegative(w: seq<real>)
    requires forall i :: 0 <= i < |w| ==> w[i] >= 0.0
    ensures Sum(w) >= 0.0
    ensures Sum(w) == 0.0 <==> forall i :: 0 <= i < |w| ==> w[i] == 0.0
  {
    if w != [] {
      assert forall i :: 1 <= i < |w| ==> w[1..][i - 1] == w[i];
      SumOfNonNegative(w[1..]);
    }
  }

  /** Every weight divided by c. */
  function Scale(w: seq<real>, c: real): (s: seq<real>)
    requires c != 0.0
    ensures |s| == |w|
  {
    seq(|w|, i requires 0 <= i < |w| => w[i] / c)
  }

  /** `x / x.sum()`; it has no value when the sum is zero (numpy yields NaN
      there, and the parent draw then raises). */
  function Normalize(w: seq<real>): (p: Option<seq<real>>)
    ensures p.None? <==> Sum(w) == 0.0
    ensures p.Some? ==> |p.value| == |w|
  {
    var total := Sum(w);
    if total == 0.0 then None else Some(Scale(w, total))
  }

  lemma DivideSum(a: real, b: real, c: real)
    requires c != 0.0
    ensures a / c + b / c == (a + b) / c
  {
  }

  /** Dividing every weight by c divides their sum by c. */
  lemma {:induction false} SumScaled(w: seq<real>, c: real)
    requires c != 0.0
    ensures Sum(Scale(w, c)) == Sum(w) / c
  {
    if w != [] {
      var s := Scale(w, c);
      SumScaled(w[1..], c);
      assert s[1..] == Scale(w[1..], c);
      DivideSum(w[0], Sum(w[1..]), c);
    }
  }

  lemma DivideSelf(c: real)
    requires c > 0.0
    ensures c / c == 1.0
  {
  }

  lemma DivideNonNegative(a: real, c: real)
    requires a >= 0.0 && c > 0.0
    ensures a / c >= 0.0
  {
  }

  /** A probability distribution: nonnegative weights that sum to 1. */
  ghost predicate IsDistribution(p: seq<real>)
  {
    (forall i :: 0 <= i < |p| ==> p[i] >= 0.0) && Sum(p) == 1.0
  }

  /** Normalising nonnegative weights with a positive sum gives a
      probability distribution. */
  lemma NormalizeIsDistribution(w: seq<real>)
    requires forall i :: 0 <= i < |w| ==> w[i] >= 0.0
    requires Sum(w) > 0.0
    ensures Normalize(w).Some? && IsDistribution(Normalize(w).value)
  {
    var total := Sum(w);
    SumScaled(w, total);
    var p := Scale(w, total);
    assert Normalize(w) == Some(p);
    DivideSelf(total);
    forall i | 0 <= i < |w|
      ensures p[i] >= 0.0
    {
      DivideNonNegative(w[i], total);
    }
  }

  /** The weights handed to the parent draw are missing exactly when every
      fitness value is zero (including the empty population). */
  lemma {:induction false} SelectionDegenerateIff(f: seq<real>)
    ensures Normalize(Shifted(f)).None? <==> forall i :: 0 <= i < |f| ==> f[i] == 0.0
  {
    var g := Shifted(f);
    if AnyNegative(f) {
      ShiftedWhenNegative(f);
      SumOfNonNegative(g);
      var k :| 0 <= k < |f| && f[k] < 0.0;
      assert g[k] != 0.0;
    } else {
      SumOfNonNegative(f);
    }
  }

  /** Whenever the weights exist they form a probability distribution, and
      when some fitness is negative every weight is strictly positive. */
  lemma SelectionIsDistribution(f: seq<real>)
    requires Normalize(Shifted(f)).Some?
    ensures IsDistribution(Normalize(Shifted(f)).value)
    ensures AnyNegative(f) ==> forall i :: 0 <= i < |f| ==> Normalize(Shifted(f)).value[i] > 0.0
  {
    var g := Shifted(f);
    if AnyNegative(f) {
      ShiftedWhenNegative(f);
    }
    SumOfNonNegative(g);
    NormalizeIsDistribution(g);
  }

  // ---------------------------------------------------------------------
  // Generations
  // ---------------------------------------------------------------------

  /** numpy returns n pairs of indices below n. */
  ghost predicate ValidChooser(choose: Chooser, n: nat)
  {
    forall w: seq<real>, g: nat :: |choose(w, g)| == n && ParentsInRange(choose(w, g), n)
  }

  /** Generation g once its agents have been scored: shift and normalise the
      scores, draw the parents, breed, mutate, starting at draw `at`. When the
      weights do not exist the parent draw raises and the population stays. */
  function Generation(pop: seq<Agent>, fitness: seq<real>, p: real, draw: nat -> real, at: nat, choose: Chooser, g: nat): (r: Run)
    requires ValidChooser(choose, |pop|)
    ensures |r.population| == |pop|
  {
    match Normalize(Shifted(fitness))
    case None => Run(pop, at, g, true)
    case Some(weights) =>
      var children := Offspring(pop, choose(weights, g));
      var mutated := MutatedAll(children, p, draw, at);
      Run(mutated.value, mutated.next, g + 1, false)
  }

  /** The loop of `step`: n generations in turn, the first of them with
      index g, stopping at the first that meets degenerate fitness. */
  function Evolve(pop: seq<Agent>, p: real, draw: nat -> real, at: nat, choose: Chooser, g: nat, n: nat): (r: Run)
    requires ValidChooser(choose, |pop|)
    ensures |r.population| == |pop|
    decreases n, 0
  {
    if n == 0 then Run(pop, at, g, false)
    else ScoreThenRun(pop, p, draw, at, choose, g, n - 1)
  }

  /** Generation g scores every agent with the noise fitness (two draws per
      agent, never the installed fitness function), then breeds; `rest`
      generations follow it. */
  function ScoreThenRun(pop: seq<Agent>, p: real, draw: nat -> real, at: nat, choose: Chooser, g: nat, rest: nat): (r: Run)
    requires ValidChooser(choose, |pop|)
    ensures |r.population| == |pop|
    decreases rest, 2
  {
    GenerationThenRun(pop, NoiseVector(|pop|, draw, at), p, draw, at + 2 * |pop|, choose, g, rest)
  }

  /** The scored generation g, then (unless it was degenerate) the `rest`
      after it. */
  function GenerationThenRun(pop: seq<Agent>, fitness: seq<real>, p: real, draw: nat -> real, at: nat, choose: Chooser, g: nat, rest: nat): (r: Run)
    requires ValidChooser(choose, |pop|)
    ensures |r.population| == |pop|
    decreases rest, 1
  {
    var first := Generation(pop, fitness, p, draw, at, choose, g);
    if first.degenerate then first
    else Evolve(first.population, p, draw, first.next, choose, g + 1, rest)
  }

  /** A run of one generation is that generation, bred from the noise scores. */
  lemma EvolveOne(pop: seq<Agent>, p: real, draw: nat -> real, at: nat, choose: Chooser, g: nat)
    requires ValidChooser(choose, |pop|)
    ensures Evolve(pop, p, draw, at, choose, g, 1)
         == Generation(pop, NoiseVector(|pop|, draw, at), p, draw, at + 2 * |pop|, choose, g)
  {
    var fitness := NoiseVector(|pop|, draw, at);
    assert Evolve(pop, p, draw, at, choose, g, 1) == ScoreThenRun(pop, p, draw, at, choose, g, 0);
    assert ScoreThenRun(pop, p, draw, at, choose, g, 0) == GenerationThenRun(pop, fitness, p, draw, at + 2 * |pop|, choose, g, 0);
  }

  /** A run of n > 0 generations is one generation followed, unless that one
      was degenerate, by n - 1 more. */
  lemma EvolveSplit(pop: seq<Agent>, p: real, draw: nat -> real, at: nat, choose: Chooser, g: nat, n: nat)
    requires ValidChooser(choose, |pop|) && n > 0
    ensures var first := Evolve(pop, p, draw, at, choose, g, 1);
      Evolve(pop, p, draw, at, choose, g, n) ==
        if first.degenerate then first
        else Evolve(first.population, p, draw, first.next, choose, g + 1, n - 1)
  {
    var fitness := NoiseVector(|pop|, draw, at);
    var scored := at + 2 * |pop|;
    assert Evolve(pop, p, draw, at, choose, g, n) == ScoreThenRun(pop, p, draw, at, choose, g, n - 1);
    assert ScoreThenRun(pop, p, draw, at, choose, g, n - 1) == GenerationThenRun(pop, fitness, p, draw, scored, choose, g, n - 1);
    EvolveOne(pop, p, draw, at, choose, g);
    var first := Generation(pop, fitness, p, draw, scored, choose, g);
    if !first.degenerate {
      assert GenerationThenRun(pop, fitness, p, draw, scored, choose, g, 0)
          == Evolve(first.population, p, draw, first.next, choose, g + 1, 0);
    }
  }

  /** The agent is `__mutate` applied, from some draw on, to the midpoint of
      two members of the population. */
  ghost predicate IsMutatedChildOf(m: Agent, pop: seq<Agent>, p: real, draw: nat -> real)
  {
    exists i, k, pos: nat :: 0 <= i < |pop| && 0 <= k < |pop| && m == Mutated(Crossover(pop[i], pop[k]), p, draw, pos).value
  }

  /** A generation that breeds replaces the population by the mutated
      midpoints of in-range parent pairs: as a whole, the mutation of the
      offspring of some pairs; and agent by agent, `__mutate` applied to the
      crossover of two members of the previous population. */
  lemma GenerationBreedsFromParents(pop: seq<Agent>, fitness: seq<real>, p: real, draw: nat -> real, at: nat, choose: Chooser, g: nat)
    requires ValidChooser(choose, |pop|)
    ensures var r := Generation(pop, fitness, p, draw, at, choose, g);
      !r.degenerate ==>
        (exists pairs :: |pairs| == |pop| && ParentsInRange(pairs, |pop|) &&
           r.population == MutatedAll(Offspring(pop, pairs), p, draw, at).value) &&
        (forall j :: 0 <= j < |pop| ==> IsMutatedChildOf(r.population[j], pop, p, draw))
  {
    var weights := Normalize(Shifted(fitness));
    if weights.Some? {
      var pairs := choose(weights.value, g);
      var children := Offspring(pop, pairs);
      var r := Generation(pop, fitness, p, draw, at, choose, g);
      assert r.population == MutatedAll(children, p, draw, at).value;
      MutatedAllEach(children, p, draw, at);
      forall j | 0 <= j < |pop|
        ensures IsMutatedChildOf(r.population[j], pop, p, draw)
      {
        assert MutatedFrom(r.population[j], children[j], p, draw);
        var pos: nat :| r.population[j] == Mutated(children[j], p, draw, pos).value;
        var i, k := pairs[j].first, pairs[j].second;
        assert children[j] == Crossover(pop[i], pop[k]);
      }
    }
  }

  /** Without mutation a generation is pure selection and averaging. */
  lemma GenerationWithoutMutation(pop: seq<Agent>, fitness: seq<real>, p: real, draw: nat -> real, at: nat, choose: Chooser, g: nat)
    requires ValidChooser(choose, |pop|) && UnitDraws(draw) && p <= 0.0
    ensures var r := Generation(pop, fitness, p, draw, at, choose, g);
      !r.degenerate ==> forall j :: 0 <= j < |pop| ==> IsChildOf(r.population[j], pop)
  {
    var weights := Normalize(Shifted(fitness));
    if weights.Some? {
      var pairs := choose(weights.value, g);
      OffspringAreChildren(pop, pairs);
      MutatedAllNeverFires(Offspring(pop, pairs), p, draw, at);
    }
  }

  /** A generation is degenerate exactly when every score is zero, and then
      the population is left as it was. */
  lemma GenerationDegenerateIff(pop: seq<Agent>, fitness: seq<real>, p: real, draw: nat -> real, at: nat, choose: Chooser, g: nat)
    requires ValidChooser(choose, |pop|)
    ensures var r := Generation(pop, fitness, p, draw, at, choose, g);
      (r.degenerate <==> forall i :: 0 <= i < |fitness| ==> fitness[i] == 0.0)
      && (r.degenerate ==> r.population == pop && r.next == at && r.choices == g)
  {
    SelectionDegenerateIff(fitness);
  }

  lemma GenerationKeepsUnit(pop: seq<Agent>, fitness: seq<real>, p: real, draw: nat -> real, at: nat, choose: Chooser, g: nat)
    requires ValidChooser(choose, |pop|) && UnitDraws(draw) && UnitPopulation(pop)
    ensures UnitPopulation(Generation(pop, fitness, p, draw, at, choose, g).population)
  {
    var weights := Normalize(Shifted(fitness));
    if weights.Some? {
      var pairs := choose(weights.value, g);
      OffspringKeepsUnit(pop, pairs);
      MutatedAllKeepsUnit(Offspring(pop, pairs), p, draw, at);
    }
  }

  /** Without mutation a generation stays inside the range of its parents' gains. */
  lemma GenerationWithin(pop: seq<Agent>, fitness: seq<real>, p: real, draw: nat -> real, at: nat, choose: Chooser, g: nat, lo: real, hi: real)
    requires ValidChooser(choose, |pop|) && UnitDraws(draw) && p <= 0.0
    requires PopulationWithin(pop, lo, hi)
    ensures PopulationWithin(Generation(pop, fitness, p, draw, at, choose, g).population, lo, hi)
  {
    var weights := Normalize(Shifted(fitness));
    if weights.Some? {
      var pairs := choose(weights.value, g);
      OffspringWithin(pop, pairs, lo, hi);
      MutatedAllNeverFires(Offspring(pop, pairs), p, draw, at);
    }
  }

  /** A generation that breeds uses two draws per agent for scoring and
      three to six per child for mutation; a degenerate one only scores. */
  lemma GenerationDrawCount(pop: seq<Agent>, fitness: seq<real>, p: real, draw: nat -> real, at: nat, choose: Chooser, g: nat)
    requires ValidChooser(choose, |pop|)
    ensures var r := Generation(pop, fitness, p, draw, at, choose, g);
      if r.degenerate then r.next == at && r.choices == g
      else at + 3 * |pop| <= r.next <= at + 6 * |pop| && r.choices == g + 1
  {
    var weights := Normalize(Shifted(fitness));
    if weights.Some? {
      MutatedAllDrawCount(Offspring(pop, choose(weights.value, g)), p, draw, at);
    }
  }

  /** A run of n generations that never meets degenerate fitness runs all n
      of them: it draws parents n times, and each generation uses between 5
      and 8 draws per agent. */
  lemma {:induction false} EvolveDrawCount(pop: seq<Agent>, p: real, draw: nat -> real, at: nat, choose: Chooser, g: nat, n: nat)
    requires ValidChooser(choose, |pop|)
    ensures var r := Evolve(pop, p, draw, at, choose, g, n);
      !r.degenerate ==> r.choices == g + n && at + 5 * |pop| * n <= r.next <= at + 8 * |pop| * n
    decreases n
  {
    if n > 0 {
      var k := |pop|;
      EvolveSplit(pop, p, draw, at, choose, g, n);
      EvolveOne(pop, p, draw, at, choose, g);
      GenerationDrawCount(pop, NoiseVector(k, draw, at), p, draw, at + 2 * k, choose, g);
      var first := Evolve(pop, p, draw, at, choose, g, 1);
      if !first.degenerate {
        EvolveDrawCount(first.population, p, draw, first.next, choose, g + 1, n - 1);
        assert 5 * k * n == 5 * k + 5 * k * (n - 1);
        assert 8 * k * n == 8 * k + 8 * k * (n - 1);
      }
    }
  }

  /** Gains that start in [0, 1) stay there for any number of generations. */
  lemma {:induction false} EvolveKeepsUnit(pop: seq<Agent>, p: real, draw: nat -> real, at: nat, choose: Chooser, g: nat, n: nat)
    requires ValidChooser(choose, |pop|) && UnitDraws(draw) && UnitPopulation(pop)
    ensures UnitPopulation(Evolve(pop, p, draw, at, choose, g, n).population)
    decreases n
  {
    if n > 0 {
      EvolveSplit(pop, p, draw, at, choose, g, n);
      EvolveOne(pop, p, draw, at, choose, g);
      GenerationKeepsUnit(pop, NoiseVector(|pop|, draw, at), p, draw, at + 2 * |pop|, choose, g);
      var first := Evolve(pop, p, draw, at, choose, g, 1);
      if !first.degenerate {
        EvolveKeepsUnit(first.population, p, draw, first.next, choose, g + 1, n - 1);
      }
    }
  }

  /** With mutation probability 0, no gain ever leaves the range spanned by
      the gains of the population the run started from. */
  lemma {:induction false} EvolveWithoutMutationStaysWithin(pop: seq<Agent>, p: real, draw: nat -> real, at: nat, choose: Chooser, g: nat, n: nat, lo: real, hi: real)
    requires ValidChooser(choose, |pop|) && UnitDraws(draw) && p <= 0.0
    requires PopulationWithin(pop, lo, hi)
    ensures PopulationWithin(Evolve(pop, p, draw, at, choose, g, n).population, lo, hi)
    decreases n
  {
    if n > 0 {
      EvolveSplit(pop, p, draw, at, choose, g, n);
      EvolveOne(pop, p, draw, at, choose, g);
      GenerationWithin(pop, NoiseVector(|pop|, draw, at), p, draw, at + 2 * |pop|, choose, g, lo, hi);
      var first := Evolve(pop, p, draw, at, choose, g, 1);
      if !first.degenerate {
        EvolveWithoutMutationStaysWithin(first.population, p, draw, first.next, choose, g + 1, n - 1, lo, hi);
      }
    }
  }

  // ---------------------------------------------------------------------
  // The in-place shift of the numpy fitness array
  // ---------------------------------------------------------------------

  /** `population_fitness_np -= population_fitness_np.min()` followed by
      `population_fitness_np += 1e-6`, both guarded by `np.any(... < 0)`. */
  method ShiftInPlace(a: array<real>)
    modifies a
    ensures a[..] == Shifted(old(a[..]))
  {
    if AnyNegative(a[..]) {
      var m := Min(a[..]);
      forall i | 0 <= i < a.Length {
        a[i] := a[i] - m;
      }
      forall i | 0 <= i < a.Length {
        a[i] := a[i] + Epsilon;
      }
      assert a[..] == Shifted(old(a[..]));
    }
  }

  // ---------------------------------------------------------------------
  // numpy's parent draw
  // ---------------------------------------------------------------------

  /** numpy's global generator as far as the tuner uses it: the parent
      draws it will make, and how many it has made. */
  class Sampler {
    const choice: Chooser
    var calls: nat

    constructor (choice: Chooser)
      ensures this.choice == choice && calls == 0
    {
      this.choice := choice;
      calls := 0;
    }

    /** One `np.random.choice` with valid weights. */
    method Choice(weights: seq<real>) returns (pairs: seq<Parents>)
      modifies this
      ensures pairs == choice(weights, old(calls))
      ensures calls == old(calls) + 1
    {
      pairs := choice(weights, calls);
      calls := calls + 1;
    }
  }

  // ---------------------------------------------------------------------
  // The tuner
  // ---------------------------------------------------------------------

  class GeneticTuner {
    var populationSize: int
    var mutationProbability: real
    var population: seq<Agent>
    var fitnessFunction: FitnessFunction

    /** Builds `populationSize` agents from the generator (none when the
        size is negative, as `range` gives nothing). */
    constructor (populationSize: int := 100, mutationProbability: real := 0.2, fitnessFunction: Option<Agent -> real> := None, rng: Random)
      modifies rng
      ensures this.populationSize == populationSize
      ensures this.mutationProbability == mutationProbability
      ensures var n := if populationSize < 0 then 0 else populationSize;
        population == InitialPopulation(n, rng.draw, old(rng.cursor)) &&
        rng.cursor == old(rng.cursor) + 3 * n
      ensures this.fitnessFunction == if fitnessFunction.None? then Noise else Custom(fitnessFunction.value)
    {
      var n := if populationSize < 0 then 0 else populationSize;
      ghost var at := rng.cursor;
      var agents: seq<Agent> := [];
      for i := 0 to n
        invariant rng.cursor == at + 3 * i
        invariant agents == InitialPopulation(i, rng.draw, at)
      {
        var kp := rng.Next();
        var ki := rng.Next();
        var kd := rng.Next();
        agents := agents + [Agent(kp, ki, kd)];
      }
      this.populationSize := populationSize;
      this.mutationProbability := mutationProbability;
      population := agents;
      this.fitnessFunction := if fitnessFunction.None? then Noise else Custom(fitnessFunction.value);
    }

    /** Changes only the recorded size; the population is not resized. */
    method SetPopulationSize(populationSize: int)
      modifies this`populationSize
      ensures this.populationSize == populationSize
      ensures population == old(population)
    {
      this.populationSize := populationSize;
    }

    method SetMutationProbability(mutationProbability: real)
      modifies this`mutationProbability
      ensures this.mutationProbability == mutationProbability
    {
      this.mutationProbability := mutationProbability;
    }

    /** Replaces the population when its length matches the recorded size,
        and otherwise fails and changes nothing. */
    method SetPopulation(agents: seq<Agent>) returns (status: Status)
      modifies this`population
      ensures status == if |agents| == populationSize then Ok else Failed(PopulationSizeMismatch)
      ensures population == if status.Ok? then agents else old(population)
    {
      if |agents| != populationSize {
        return Failed(PopulationSizeMismatch);
      }
      population := agents;
      status := Ok;
    }

    /** Stores the function as given; `None` is stored as well, since
        nothing here calls the stored function. */
    method SetFitnessFunction(score: Option<Agent -> real>)
      modifies this`fitnessFunction
      ensures fitnessFunction == if score.None? then Absent else Custom(score.value)
    {
      fitnessFunction := if score.None? then Absent else Custom(score.value);
    }

    /** `__fitness`: noise, whatever the agent. */
    method Fitness(agent: Agent, rng: Random) returns (f: real)
      modifies rng
      ensures f == NoiseFitness(rng.draw, old(rng.cursor))
      ensures rng.cursor == old(rng.cursor) + 2
    {
      var u := rng.Next();
      var v := rng.Next();
      f := u * 100.0 - v * 100.0;
    }

    method MutateGene(k: real, rng: Random) returns (r: real)
      modifies rng
      ensures Drawn(r, rng.cursor) == MutatedGene(k, mutationProbability, rng.draw, old(rng.cursor))
    {
      var test := rng.Next();
      if test < mutationProbability {
        r := rng.Next();
      } else {
        r := k;
      }
    }

    /** `__mutate`: the agent's tunings are rewritten gene by gene. */
    method Mutate(agent: Agent, rng: Random) returns (m: Agent)
      modifies rng
      ensures Drawn(m, rng.cursor) == Mutated(agent, mutationProbability, rng.draw, old(rng.cursor))
    {
      var kp := MutateGene(agent.kp, rng);
      var ki := MutateGene(agent.ki, rng);
      var kd := MutateGene(agent.kd, rng);
      m := Agent(kp, ki, kd);
    }

    /** `[self.__fitness(agent) for agent in self.population]`. */
    method Evaluate(rng: Random) returns (fitness: seq<real>)
      modifies rng
      ensures fitness == NoiseVector(|population|, rng.draw, old(rng.cursor))
      ensures rng.cursor == old(rng.cursor) + 2 * |population|
    {
      ghost var at := rng.cursor;
      fitness := [];
      for i := 0 to |population|
        invariant rng.cursor == at + 2 * i
        invariant |fitness| == i
        invariant forall k :: 0 <= k < i ==> fitness[k] == NoiseFitness(rng.draw, at + 2 * k)
      {
        var f := Fitness(population[i], rng);
        fitness := fitness + [f];
      }
    }

    /** `list(map(self.__mutate, children))`. */
    method MutateAll(children: seq<Agent>, rng: Random) returns (mutated: seq<Agent>)
      modifies rng
      ensures Drawn(mutated, rng.cursor) == MutatedAll(children, mutationProbability, rng.draw, old(rng.cursor))
    {
      ghost var at := rng.cursor;
      mutated := [];
      for j := 0 to |children|
        invariant MutatedAll(children[..j], mutationProbability, rng.draw, at) == Drawn(mutated, rng.cursor)
      {
        var m := Mutate(children[j], rng);
        assert children[..j + 1][..j] == children[..j];
        mutated := mutated + [m];
      }
      assert children[..|children|] == children;
    }

    /** The rest of the body of `step`'s loop once the agents are scored:
        shift the scores in place, normalise, draw the parents, breed and
        mutate. The population is replaced only when the weights exist. */
    method Breed(fitness: seq<real>, rng: Random, numpy: Sampler) returns (degenerate: bool)
      requires ValidChooser(numpy.choice, |population|)
      modifies this`population, rng, numpy
      ensures Run(population, rng.cursor, numpy.calls, degenerate) ==
        Generation(old(population), fitness, mutationProbability, rng.draw, old(rng.cursor), numpy.choice, old(numpy.calls))
    {
      var weights := new real[|fitness|](i requires 0 <= i < |fitness| => fitness[i]);
      assert weights[..] == fitness;
      ShiftInPlace(weights);
      var probabilities := Normalize(weights[..]);
      if probabilities.None? {
        return true;
      }
      var parents := numpy.Choice(probabilities.value);
      population := Offspring(population, parents);
      population := MutateAll(population, rng);
      degenerate := false;
    }

    /** One pass of the body of `step`'s loop, which is one generation. */
    method RunGeneration(rng: Random, numpy: Sampler) returns (degenerate: bool)
      requires ValidChooser(numpy.choice, |population|)
      modifies this`population, rng, numpy
      ensures Run(population, rng.cursor, numpy.calls, degenerate) ==
        Evolve(old(population), mutationProbability, rng.draw, old(rng.cursor), numpy.choice, old(numpy.calls), 1)
    {
      EvolveOne(population, mutationProbability, rng.draw, rng.cursor, numpy.choice, numpy.calls);
      var fitness := Evaluate(rng);
      degenerate := Breed(fitness, rng, numpy);
    }

    /** `step(num_generations)`: checks its two assertions, then runs the
        generations; a degenerate generation ends it with the population
        the previous generation left. */
    method Step(numGenerations: int := 1, rng: Random, numpy: Sampler) returns (status: Status)
      requires |population| == populationSize ==> ValidChooser(numpy.choice, |population|)
      modifies this`population, rng, numpy
      ensures numGenerations <= 0 ==>
        status == Failed(NonPositiveGenerations) && population == old(population) &&
        rng.cursor == old(rng.cursor) && numpy.calls == old(numpy.calls)
      ensures numGenerations > 0 && |old(population)| != populationSize ==>
        status == Failed(PopulationSizeMismatch) && population == old(population) &&
        rng.cursor == old(rng.cursor) && numpy.calls == old(numpy.calls)
      ensures numGenerations > 0 && |old(population)| == populationSize ==>
        var r := Evolve(old(population), mutationProbability, rng.draw, old(rng.cursor), numpy.choice, old(numpy.calls), numGenerations);
        population == r.population && rng.cursor == r.next && numpy.calls == r.choices &&
        status == if r.degenerate then Failed(DegenerateFitness) else Ok
      ensures |population| == |old(population)|
    {
      if numGenerations <= 0 {
        return Failed(NonPositiveGenerations);
      }
      if |population| != populationSize {
        return Failed(PopulationSizeMismatch);
      }
      ghost var p, draw, choose := mutationProbability, rng.draw, numpy.choice;
      ghost var whole := Evolve(population, p, draw, rng.cursor, choose, numpy.calls, numGenerations);
      for i := 0 to numGenerations
        invariant |population| == populationSize && ValidChooser(choose, |population|)
        invariant Evolve(population, p, draw, rng.cursor, choose, numpy.calls, numGenerations - i) == whole
      {
        EvolveSplit(population, p, draw, rng.cursor, choose, numpy.calls, numGenerations - i);
        var degenerate := RunGeneration(rng, numpy);
        if degenerate {
          return Failed(DegenerateFitness);
        }
      }
      status := Ok;
    }
  }

  /** A tuner built with the default arguments has 100 agents drawn from
      the generator, mutation probability 0.2 and the noise fitness. */
  method DefaultTuner(rng: Random) returns (t: GeneticTuner)
    modifies rng
    ensures t.populationSize == 100 && t.mutationProbability == 0.2 && t.fitnessFunction == Noise
    ensures t.population == InitialPopulation(100, rng.draw, old(rng.cursor))
    ensures |t.population| == 100 && rng.cursor == old(rng.cursor) + 300
  {
    t := new GeneticTuner(rng := rng);
  }

  /** Changing the recorded size to anything but the length of the
      population makes the next `step` fail its size assertion, leaving the
      population and both generators untouched. */
  method ResizedTunerRefusesToStep(t: GeneticTuner, size: int, n: int, rng: Random, numpy: Sampler) returns (status: Status)
    requires size != |t.population| && n > 0
    modifies t, rng, numpy
    ensures t.populationSize == size
    ensures status == Failed(PopulationSizeMismatch)
    ensures t.population == old(t.population)
    ensures rng.cursor == old(rng.cursor) && numpy.calls == old(numpy.calls)
  {
    t.SetPopulationSize(size);
    status := t.Step(n, rng, numpy);
  }
}
