/**
 * The genetic-algorithm engine: chromosomes, roulette-wheel selection, uniform crossover,
 * Gaussian-style mutation and the generation step `evolve`.
 *
 * Each operation that draws randomness exists twice: as a pure function of the draw stream
 * and the cursor (the specification, about which the lemmas speak) and as a method over the
 * shared mutable `Rng` (the operation as the engine runs it), proved equal to the function.
 * Genes and fitness values are reals; f32 rounding is not modelled.
 */
module GeneticAlgorithm {
  import opened Wrappers
  import opened Random

  // ---------------------------------------------------------------------------------------
  // Chromosome
  // ---------------------------------------------------------------------------------------

  /** A flat vector of genes; `len`, `iter` and `from_iter` are its length, its sequence and its constructor. */
  datatype Chromosome = Chromosome(genes: seq<real>) {
    function Len(): nat { |genes| }
  }

  function Min(a: nat, b: nat): nat { if a <= b then a else b }

  function Abs(x: real): real { if x < 0.0 then -x else x }

  // ---------------------------------------------------------------------------------------
  // Strategies and the engine
  // ---------------------------------------------------------------------------------------

  /** The selection, crossover and mutation strategies; each has the one implementation the repository has. */
  datatype SelectionMethod = RouletteWheelSelection
  datatype CrossoverMethod = UniformCrossover
  datatype MutationMethod = GaussianMutation(chance: real, coeff: real)

  /** `GeneticAlgorithm::new` only stores its three strategies. */
  datatype Engine = Engine(selection: SelectionMethod, crossover: CrossoverMethod, mutation: MutationMethod)

  /** The failure of `GaussianMutation::new`'s assertion. */
  datatype ConfigError = ChanceOutOfRange

  /** `GaussianMutation::new`: the mutation chance must lie in [0, 1]. */
  function NewGaussianMutation(chance: real, coeff: real): (r: Result<MutationMethod, ConfigError>)
    ensures r.Success? <==> 0.0 <= chance <= 1.0
    ensures r.Success? ==> r.value.chance == chance && r.value.coeff == coeff
  {
    if chance >= 0.0 && chance <= 1.0 then Success(GaussianMutation(chance, coeff))
    else Failure(ChanceOutOfRange)
  }

  // ---------------------------------------------------------------------------------------
  // Roulette-wheel selection (`choose_weighted` with the fitness as weight)
  // ---------------------------------------------------------------------------------------

  /** Why `choose_weighted` returns an error, which `select` then unwraps into a panic. */
  datatype SelectError = NoItem | InvalidWeight | AllWeightsZero

  function Sum(w: seq<real>): real
  {
    if |w| == 0 then 0.0 else w[0] + Sum(w[1..])
  }

  predicate NonNegative(w: seq<real>)
  {
    forall i :: 0 <= i < |w| ==> w[i] >= 0.0
  }

  lemma {:induction false} SumNonNegative(w: seq<real>)
    requires NonNegative(w)
    ensures Sum(w) >= 0.0
  {
    if |w| > 0 {
      SumNonNegative(w[1..]);
    }
  }

  /** The weights that selection assigns: each individual's fitness, in population order. */
  function Weights<A>(individuals: seq<A>, fitness: A -> real): seq<real>
  {
    seq(|individuals|, i requires 0 <= i < |individuals| => fitness(individuals[i]))
  }

  /** The checks of `WeightedIndex::new`, in the order it makes them. */
  function CheckWeights(w: seq<real>): (r: Option<SelectError>)
    ensures r.None? <==> |w| > 0 && NonNegative(w) && Sum(w) > 0.0
    ensures r == Some(NoItem) <==> |w| == 0
  {
    if |w| == 0 then Some(NoItem)
    else if !NonNegative(w) then Some(InvalidWeight)
    else
      SumNonNegative(w);
      if Sum(w) == 0.0 then Some(AllWeightsZero) else None
  }

  /**
   * The index whose slot on the wheel holds `r`: slot k is [Sum(w[..k]), Sum(w[..k+1])).
   * `WeightedIndex::sample` finds it by binary search over the cumulative weights.
   */
  function Pick(w: seq<real>, r: real): (k: nat)
    requires NonNegative(w) && 0.0 <= r < Sum(w)
    ensures k < |w| && w[k] > 0.0
    ensures Sum(w[..k]) <= r < Sum(w[..k + 1])
    decreases |w|
  {
    if r < w[0] then
      assert w[..1][1..] == [];
      0
    else
      SumNonNegative(w[1..]);
      var k := Pick(w[1..], r - w[0]);
      assert w[..k + 1][1..] == w[1..][..k];
      assert w[..k + 2][1..] == w[1..][..k + 1];
      1 + k
  }

  lemma {:induction false} PrefixSumNonNegative(w: seq<real>, k: nat)
    requires NonNegative(w) && k <= |w|
    ensures Sum(w[..k]) >= 0.0
  {
    assert NonNegative(w[..k]);
    SumNonNegative(w[..k]);
  }

  /** The slots partition [0, Sum(w)): the index Pick returns is the only one whose slot holds `r`. */
  lemma {:induction false} PickUnique(w: seq<real>, r: real, k: nat)
    requires NonNegative(w) && 0.0 <= r < Sum(w)
    requires k < |w| && Sum(w[..k]) <= r < Sum(w[..k + 1])
    ensures Pick(w, r) == k
    decreases |w|
  {
    assert w[..1][1..] == [];
    if k == 0 {
      assert w[..1] == [w[0]];
    } else {
      assert w[..k][1..] == w[1..][..k - 1];
      assert w[..k + 1][1..] == w[1..][..k];
      PrefixSumNonNegative(w[1..], k - 1);
      SumNonNegative(w[1..]);
      PickUnique(w[1..], r - w[0], k - 1);
    }
  }

  /**
   * `RouletteWheelSelection::select`: the index of the chosen individual, taking one draw on
   * success. It fails exactly when `choose_weighted` returns an error.
   */
  function Selected<A>(s: Stream, p: nat, individuals: seq<A>, fitness: A -> real): (r: Result<nat, SelectError>)
    ensures r.Success? <==> CheckWeights(Weights(individuals, fitness)).None?
    ensures r.Failure? ==> CheckWeights(Weights(individuals, fitness)) == Some(r.error)
    ensures r.Success? ==> r.value < |individuals| && fitness(individuals[r.value]) > 0.0
  {
    var w := Weights(individuals, fitness);
    match CheckWeights(w)
    case Some(e) => Failure(e)
    case None =>
      var k := Pick(w, UniformBelow(s(p), Sum(w)));
      assert w[k] == fitness(individuals[k]);
      Success(k)
  }

  /** The roulette wheel: a draw lands in the slot of the selected individual, and in no other. */
  lemma SelectedSlot<A>(s: Stream, p: nat, individuals: seq<A>, fitness: A -> real, k: nat)
    requires Selected(s, p, individuals, fitness).Success?
    requires k < |individuals|
    ensures var w := Weights(individuals, fitness);
      Selected(s, p, individuals, fitness).value == k
      <==> Sum(w[..k]) <= UniformBelow(s(p), Sum(w)) < Sum(w[..k + 1])
  {
    var w := Weights(individuals, fitness);
    var r := UniformBelow(s(p), Sum(w));
    if Sum(w[..k]) <= r < Sum(w[..k + 1]) {
      PickUnique(w, r, k);
    }
  }

  lemma {:induction false} SumSnoc(w: seq<real>, x: real)
    ensures Sum(w + [x]) == Sum(w) + x
  {
    if |w| > 0 {
      assert (w + [x])[1..] == w[1..] + [x];
      SumSnoc(w[1..], x);
    }
  }

  /** The fitness values of the repository's selection test: `(0..n).map(|i| i as f32)`. */
  function Ramp(n: nat): seq<real>
  {
    seq(n, i requires 0 <= i < n => i as real)
  }

  /** n(n-1): twice the triangular number 0 + 1 + … + (n-1). */
  function TwiceTriangle(n: nat): int
  {
    n * (n - 1)
  }

  /** The first `n` values sum to the triangular number n(n-1)/2. */
  lemma {:induction false} RampSum(n: nat)
    ensures 2.0 * Sum(Ramp(n)) == TwiceTriangle(n) as real
  {
    if n > 0 {
      assert Ramp(n) == Ramp(n - 1) + [(n - 1) as real];
      SumSnoc(Ramp(n - 1), (n - 1) as real);
      RampSum(n - 1);
    }
  }

  /** Selection over the test population succeeds: the fitness values sum to 45. */
  lemma TestPopulationWeights(s: Stream, p: nat)
    ensures Weights(Ramp(10), (f: real) => f) == Ramp(10)
    ensures Sum(Ramp(10)) == 45.0
    ensures Selected(s, p, Ramp(10), (f: real) => f).Success?
  {
    assert Weights(Ramp(10), (f: real) => f) == Ramp(10);
    RampSum(10);
    assert NonNegative(Ramp(10));
  }

  /** The slot of individual `k` of the test population is [k(k-1)/90, k(k+1)/90) of the draw. */
  lemma TestPopulationSlot(s: Stream, p: nat, k: nat)
    requires 1 <= k < 10
    ensures Selected(s, p, Ramp(10), (f: real) => f) == Success(k)
            <==> TwiceTriangle(k) as real <= 90.0 * s(p) < TwiceTriangle(k + 1) as real
  {
    var population := Ramp(10);
    TestPopulationWeights(s, p);
    SelectedSlot(s, p, population, (f: real) => f, k);
    assert population[..k] == Ramp(k);
    assert population[..k + 1] == Ramp(k + 1);
    RampSum(k);
    RampSum(k + 1);
  }

  /**
   * The repository's selection test: ten individuals whose fitness is 0, 1, …, 9. Selection
   * succeeds, never picks the individual of fitness 0, and picks individual k exactly when the
   * draw u satisfies k(k-1) <= 90u < k(k+1): with u uniform, k is chosen with probability k/45.
   */
  lemma SelectedTestPopulation(s: Stream, p: nat)
    ensures var r := Selected(s, p, Ramp(10), (f: real) => f);
      r.Success? && 1 <= r.value < 10
    ensures var r := Selected(s, p, Ramp(10), (f: real) => f);
      forall k: nat :: 1 <= k < 10 ==> (r.value == k <==> TwiceTriangle(k) as real <= 90.0 * s(p) < TwiceTriangle(k + 1) as real)
  {
    TestPopulationWeights(s, p);
    forall k: nat | 1 <= k < 10
      ensures Selected(s, p, Ramp(10), (f: real) => f).value == k
              <==> TwiceTriangle(k) as real <= 90.0 * s(p) < TwiceTriangle(k + 1) as real
    {
      TestPopulationSlot(s, p, k);
    }
  }

  /** With every fitness zero, selection fails; on an empty population it fails with NoItem. */
  lemma SelectedDegenerate<A>(s: Stream, p: nat, individuals: seq<A>, fitness: A -> real)
    requires forall i :: 0 <= i < |individuals| ==> fitness(individuals[i]) == 0.0
    ensures Selected(s, p, individuals, fitness).Failure?
    ensures |individuals| == 0 <==> Selected(s, p, individuals, fitness) == Failure(NoItem)
  {
  }

  /** `select` as the engine runs it on the shared generator. */
  method Select<A>(rng: Rng, individuals: seq<A>, fitness: A -> real) returns (r: Result<nat, SelectError>)
    modifies rng
    ensures r == Selected(rng.stream, old(rng.pos), individuals, fitness)
    ensures rng.pos == if r.Success? then old(rng.pos) + 1 else old(rng.pos)
  {
    var w := Weights(individuals, fitness);
    var check := CheckWeights(w);
    if check.Some? {
      return Failure(check.value);
    }
    var u := rng.Gen();
    r := Success(Pick(w, UniformBelow(u, Sum(w))));
  }

  // ---------------------------------------------------------------------------------------
  // Uniform crossover
  // ---------------------------------------------------------------------------------------

  /**
   * `UniformCrossover::crossover`: zip the parents and take, position by position, parent A's
   * gene when that position's coin is true and parent B's otherwise. One draw per position.
   */
  function Crossed(s: Stream, p: nat, a: seq<real>, b: seq<real>): (child: seq<real>)
    ensures |child| == Min(|a|, |b|)
    decreases |a|
  {
    if |a| == 0 || |b| == 0 then []
    else [if Bernoulli(s(p), 0.5) then a[0] else b[0]] + Crossed(s, p + 1, a[1..], b[1..])
  }

  /** Gene `i` of the child is parent A's when the coin at draw `p + i` is true, else parent B's. */
  lemma {:induction false} CrossedAt(s: Stream, p: nat, a: seq<real>, b: seq<real>, i: nat)
    requires i < Min(|a|, |b|)
    ensures Crossed(s, p, a, b)[i] == if Bernoulli(s(p + i), 0.5) then a[i] else b[i]
    decreases |a|
  {
    if i > 0 {
      CrossedAt(s, p + 1, a[1..], b[1..], i - 1);
    }
  }

  /** Every child gene is one of its parents' genes at that position; parents of equal length give a child of that length. */
  lemma CrossedFromParents(s: Stream, p: nat, a: seq<real>, b: seq<real>)
    ensures |a| == |b| ==> |Crossed(s, p, a, b)| == |a|
    ensures forall i :: 0 <= i < Min(|a|, |b|) ==> Crossed(s, p, a, b)[i] in {a[i], b[i]}
  {
    forall i | 0 <= i < Min(|a|, |b|) ensures Crossed(s, p, a, b)[i] in {a[i], b[i]} {
      CrossedAt(s, p, a, b, i);
    }
  }

  /** Crossing a chromosome with itself gives it back, whatever the draws. */
  lemma CrossedSelf(s: Stream, p: nat, a: seq<real>)
    ensures Crossed(s, p, a, a) == a
  {
    CrossedFromParents(s, p, a, a);
  }

  /** `crossover` as the engine runs it on the shared generator. */
  method Crossover(rng: Rng, a: Chromosome, b: Chromosome) returns (child: Chromosome)
    modifies rng
    ensures child.genes == Crossed(rng.stream, old(rng.pos), a.genes, b.genes)
    ensures rng.pos == old(rng.pos) + Min(a.Len(), b.Len())
  {
    ghost var p0 := rng.pos;
    var n := Min(|a.genes|, |b.genes|);
    var genes: seq<real> := [];
    var i := 0;
    while i < n
      invariant 0 <= i <= n && rng.pos == p0 + i && |genes| == i
      invariant forall j :: 0 <= j < i ==>
        genes[j] == if Bernoulli(rng.stream(p0 + j), 0.5) then a.genes[j] else b.genes[j]
    {
      var fromA := rng.GenBool(0.5);
      genes := genes + [if fromA then a.genes[i] else b.genes[i]];
      i := i + 1;
    }
    child := Chromosome(genes);
    forall j | 0 <= j < n ensures genes[j] == Crossed(rng.stream, p0, a.genes, b.genes)[j] {
      CrossedAt(rng.stream, p0, a.genes, b.genes, j);
    }
  }

  // ---------------------------------------------------------------------------------------
  // Gaussian mutation
  // ---------------------------------------------------------------------------------------

  /** The change `sign * coeff * u` of a mutated gene; the sign is -1 when its coin is true. */
  function Perturbation(negative: bool, coeff: real, u: Unit): (d: real)
    ensures Abs(d) <= Abs(coeff)
  {
    var sign := if negative then -1.0 else 1.0;
    assert Abs(sign * coeff * u) == Abs(coeff) * u;
    assert Abs(coeff) * u <= Abs(coeff) * 1.0;
    sign * coeff * u
  }

  /**
   * One gene of `GaussianMutation::mutate`, its draws starting at `q`: a sign coin (true is
   * -1), then the chance coin, then, only if that is true, a magnitude in [0, 1). Returns the
   * new gene and the number of draws taken.
   */
  function MutatedGene(s: Stream, q: nat, chance: real, coeff: real, gene: real): (r: (real, nat))
    ensures r.1 == if Bernoulli(s(q + 1), chance) then 3 else 2
    ensures !Bernoulli(s(q + 1), chance) ==> r.0 == gene
    ensures Bernoulli(s(q + 1), chance) ==> r.0 == gene + Perturbation(Bernoulli(s(q), 0.5), coeff, s(q + 2))
    ensures Abs(r.0 - gene) <= Abs(coeff)
  {
    if Bernoulli(s(q + 1), chance) then
      (gene + Perturbation(Bernoulli(s(q), 0.5), coeff, s(q + 2)), 3)
    else
      (gene, 2)
  }

  /**
   * `GaussianMutation::mutate` over a whole chromosome, gene by gene from the front, starting at
   * cursor `p`: the new genes and the cursor after the last draw.
   */
  function Mutated(s: Stream, p: nat, chance: real, coeff: real, genes: seq<real>): (r: (seq<real>, nat))
    ensures |r.0| == |genes|
    ensures p + 2 * |genes| <= r.1 <= p + 3 * |genes|
    decreases |genes|
  {
    if |genes| == 0 then ([], p)
    else
      var before := Mutated(s, p, chance, coeff, genes[..|genes| - 1]);
      var last := MutatedGene(s, before.1, chance, coeff, genes[|genes| - 1]);
      (before.0 + [last.0], before.1 + last.1)
  }

  /** Gene `i` is mutated with the draws that follow those of the genes before it. */
  lemma {:induction false} MutatedAt(s: Stream, p: nat, chance: real, coeff: real, genes: seq<real>, i: nat)
    requires i < |genes|
    ensures Mutated(s, p, chance, coeff, genes).0[i]
      == MutatedGene(s, Mutated(s, p, chance, coeff, genes[..i]).1, chance, coeff, genes[i]).0
    decreases |genes|
  {
    var n := |genes| - 1;
    if i < n {
      assert genes[..n][..i] == genes[..i];
      MutatedAt(s, p, chance, coeff, genes[..n], i);
    }
  }

  /** No gene moves by more than |coeff|. */
  lemma {:induction false} MutatedBounded(s: Stream, p: nat, chance: real, coeff: real, genes: seq<real>)
    ensures forall i :: 0 <= i < |genes| ==>
      Abs(Mutated(s, p, chance, coeff, genes).0[i] - genes[i]) <= Abs(coeff)
  {
    forall i | 0 <= i < |genes|
      ensures Abs(Mutated(s, p, chance, coeff, genes).0[i] - genes[i]) <= Abs(coeff)
    {
      MutatedAt(s, p, chance, coeff, genes, i);
    }
  }

  /** With chance 0 no chance coin comes up true: the chromosome is unchanged, at two draws per gene. */
  lemma {:induction false} MutatedWithoutChance(s: Stream, p: nat, coeff: real, genes: seq<real>)
    ensures Mutated(s, p, 0.0, coeff, genes) == (genes, p + 2 * |genes|)
    decreases |genes|
  {
    if |genes| > 0 {
      var n := |genes| - 1;
      MutatedWithoutChance(s, p, coeff, genes[..n]);
      assert genes[..n] + [genes[n]] == genes;
    }
  }

  /** Mutating one more gene extends the result by that gene, mutated with the next draws. */
  lemma MutatedSnoc(s: Stream, p: nat, chance: real, coeff: real, genes: seq<real>, i: nat)
    requires i < |genes|
    ensures var before := Mutated(s, p, chance, coeff, genes[..i]);
      var step := MutatedGene(s, before.1, chance, coeff, genes[i]);
      Mutated(s, p, chance, coeff, genes[..i + 1]) == (before.0 + [step.0], before.1 + step.1)
  {
    assert genes[..i + 1][..i] == genes[..i];
  }

  /** The body of the loop in `mutate`: one gene, with draws from the shared generator. */
  method MutateGene(m: MutationMethod, rng: Rng, gene: real) returns (r: real)
    requires 0.0 <= m.chance <= 1.0
    modifies rng
    ensures r == MutatedGene(rng.stream, old(rng.pos), m.chance, m.coeff, gene).0
    ensures rng.pos == old(rng.pos) + MutatedGene(rng.stream, old(rng.pos), m.chance, m.coeff, gene).1
  {
    var negative := rng.GenBool(0.5);
    var hit := rng.GenBool(m.chance);
    r := gene;
    if hit {
      var u := rng.Gen();
      r := gene + Perturbation(negative, m.coeff, u);
    }
  }

  /** `mutate` as the engine runs it: overwrites the genes in place, drawing from the shared generator. */
  method Mutate(m: MutationMethod, rng: Rng, genes: array<real>)
    requires 0.0 <= m.chance <= 1.0
    modifies rng, genes
    ensures genes[..] == Mutated(rng.stream, old(rng.pos), m.chance, m.coeff, old(genes[..])).0
    ensures rng.pos == Mutated(rng.stream, old(rng.pos), m.chance, m.coeff, old(genes[..])).1
  {
    ghost var p0 := rng.pos;
    ghost var g0 := genes[..];
    var i := 0;
    while i < genes.Length
      invariant 0 <= i <= genes.Length
      invariant genes[..i] == Mutated(rng.stream, p0, m.chance, m.coeff, g0[..i]).0
      invariant rng.pos == Mutated(rng.stream, p0, m.chance, m.coeff, g0[..i]).1
      invariant forall j :: i <= j < genes.Length ==> genes[j] == g0[j]
    {
      MutatedSnoc(rng.stream, p0, m.chance, m.coeff, g0, i);
      var gene := MutateGene(m, rng, genes[i]);
      genes[i] := gene;
      assert genes[..i + 1] == genes[..i] + [genes[i]];
      i := i + 1;
    }
    assert genes[..] == genes[..genes.Length];
    assert g0 == g0[..genes.Length];
  }

  // ---------------------------------------------------------------------------------------
  // The generation step
  // ---------------------------------------------------------------------------------------

  /** How one child came about: the indices of its two selected parents and its final genes. */
  datatype Birth = Birth(parentA: nat, parentB: nat, genes: seq<real>)

  /** The child of two parent chromosomes: crossed with the draws from `q` on, then mutated with the draws after those. */
  function Child(ga: Engine, s: Stream, q: nat, pa: seq<real>, pb: seq<real>): (r: (seq<real>, nat))
  {
    var child := Crossed(s, q, pa, pb);
    Mutated(s, q + |child|, ga.mutation.chance, ga.mutation.coeff, child)
  }

  /**
   * One pass of the closure in `evolve`, its draws starting at `q`: select parent A, select
   * parent B, cross their chromosomes, mutate the child. Returns the birth and the next cursor.
   */
  function Bred<A>(ga: Engine, s: Stream, q: nat, population: seq<A>, fitness: A -> real,
                   chromosome: A -> Chromosome): Result<(Birth, nat), SelectError>
  {
    match Selected(s, q, population, fitness)
    case Failure(e) => Failure(e)
    case Success(a) =>
      match Selected(s, q + 1, population, fitness)
      case Failure(e) => Failure(e)
      case Success(b) =>
        var child := Child(ga, s, q + 2, chromosome(population[a]).genes, chromosome(population[b]).genes);
        Success((Birth(a, b, child.0), child.1))
  }

  /** The first `k` births of a generation, in order, and the cursor after them. */
  function Births<A>(ga: Engine, s: Stream, p: nat, population: seq<A>, fitness: A -> real,
                     chromosome: A -> Chromosome, k: nat): (r: Result<(seq<Birth>, nat), SelectError>)
    ensures r.Success? ==> |r.value.0| == k
  {
    if k == 0 then Success(([], p))
    else
      match Births(ga, s, p, population, fitness, chromosome, k - 1)
      case Failure(e) => Failure(e)
      case Success(before) =>
        match Bred(ga, s, before.1, population, fitness, chromosome)
        case Failure(e) => Failure(e)
        case Success(next) => Success((before.0 + [next.0], next.1))
  }

  /** `Agent::create` applied to each birth's genes. */
  function Offspring<A>(births: seq<Birth>, create: Chromosome -> A): seq<A>
  {
    seq(|births|, i requires 0 <= i < |births| => create(Chromosome(births[i].genes)))
  }

  /** `GeneticAlgorithm::evolve`: one child per slot of the population, or the panic of `select`. */
  function Evolved<A>(ga: Engine, s: Stream, p: nat, population: seq<A>, fitness: A -> real,
                      chromosome: A -> Chromosome, create: Chromosome -> A): Result<seq<A>, SelectError>
  {
    match Births(ga, s, p, population, fitness, chromosome, |population|)
    case Failure(e) => Failure(e)
    case Success(births) => Success(Offspring(births.0, create))
  }

  /** Each gene of `child` lies within `bound` of the gene at the same position in one of the parents. */
  predicate NearParents(child: seq<real>, pa: seq<real>, pb: seq<real>, bound: real)
  {
    |child| == Min(|pa|, |pb|)
    && forall j :: 0 <= j < |child| ==> Abs(child[j] - pa[j]) <= bound || Abs(child[j] - pb[j]) <= bound
  }

  /** Crossing and then mutating leaves a child as long as the shorter parent, each gene within |coeff| of a parent's. */
  lemma ChildNearParents(ga: Engine, s: Stream, q: nat, pa: seq<real>, pb: seq<real>)
    ensures NearParents(Child(ga, s, q, pa, pb).0, pa, pb, Abs(ga.mutation.coeff))
  {
    var crossed := Crossed(s, q, pa, pb);
    CrossedFromParents(s, q, pa, pb);
    MutatedBounded(s, q + |crossed|, ga.mutation.chance, ga.mutation.coeff, crossed);
  }

  /** A birth as `evolve` promises it: two parents of positive fitness and a child near them. */
  predicate WellBred<A>(ga: Engine, population: seq<A>, fitness: A -> real, chromosome: A -> Chromosome, b: Birth)
  {
    b.parentA < |population| && b.parentB < |population|
    && fitness(population[b.parentA]) > 0.0 && fitness(population[b.parentB]) > 0.0
    && NearParents(b.genes, chromosome(population[b.parentA]).genes, chromosome(population[b.parentB]).genes,
                   Abs(ga.mutation.coeff))
  }

  lemma BredWellBred<A>(ga: Engine, s: Stream, q: nat, population: seq<A>, fitness: A -> real,
                        chromosome: A -> Chromosome)
    requires Bred(ga, s, q, population, fitness, chromosome).Success?
    ensures WellBred(ga, population, fitness, chromosome, Bred(ga, s, q, population, fitness, chromosome).value.0)
  {
    var a := Selected(s, q, population, fitness).value;
    var b := Selected(s, q + 1, population, fitness).value;
    ChildNearParents(ga, s, q + 2, chromosome(population[a]).genes, chromosome(population[b]).genes);
  }

  /** Births fail from the first failing selection on, and a failure never recovers. */
  lemma {:induction false} BirthsFailureStays<A>(ga: Engine, s: Stream, p: nat, population: seq<A>, fitness: A -> real,
                                                 chromosome: A -> Chromosome, k: nat, m: nat)
    requires k <= m
    requires Births(ga, s, p, population, fitness, chromosome, k).Failure?
    ensures Births(ga, s, p, population, fitness, chromosome, m) == Births(ga, s, p, population, fitness, chromosome, k)
    decreases m
  {
    if k < m {
      BirthsFailureStays(ga, s, p, population, fitness, chromosome, k, m - 1);
    }
  }

  /** Every birth so far is well bred; the births fail exactly when selection is undefined, with its error. */
  lemma {:induction false} BirthsProperties<A>(ga: Engine, s: Stream, p: nat, population: seq<A>, fitness: A -> real,
                                               chromosome: A -> Chromosome, k: nat)
    ensures var r := Births(ga, s, p, population, fitness, chromosome, k);
      r.Success? <==> k == 0 || CheckWeights(Weights(population, fitness)).None?
    ensures var r := Births(ga, s, p, population, fitness, chromosome, k);
      r.Failure? ==> CheckWeights(Weights(population, fitness)) == Some(r.error)
    ensures var r := Births(ga, s, p, population, fitness, chromosome, k);
      r.Success? ==> forall i :: 0 <= i < k ==> WellBred(ga, population, fitness, chromosome, r.value.0[i])
    decreases k
  {
    if k > 0 {
      BirthsProperties(ga, s, p, population, fitness, chromosome, k - 1);
      var before := Births(ga, s, p, population, fitness, chromosome, k - 1);
      if before.Success? {
        var next := Bred(ga, s, before.value.1, population, fitness, chromosome);
        if next.Success? {
          BredWellBred(ga, s, before.value.1, population, fitness, chromosome);
        }
      }
    }
  }

  /**
   * What `evolve` returns: on an empty population, nothing and no panic; otherwise a panic, with
   * the error of `choose_weighted`, if roulette selection is undefined, else exactly one created agent per slot, child `i` being
   * `create` of a well-bred birth.
   */
  lemma EvolvedProperties<A>(ga: Engine, s: Stream, p: nat, population: seq<A>, fitness: A -> real,
                             chromosome: A -> Chromosome, create: Chromosome -> A)
    ensures var r := Evolved(ga, s, p, population, fitness, chromosome, create);
      r.Success? <==> |population| == 0 || CheckWeights(Weights(population, fitness)).None?
    ensures var r := Evolved(ga, s, p, population, fitness, chromosome, create);
      r.Failure? ==> CheckWeights(Weights(population, fitness)) == Some(r.error)
    ensures var r := Evolved(ga, s, p, population, fitness, chromosome, create);
      r.Success? ==> |r.value| == |population|
    ensures var r := Evolved(ga, s, p, population, fitness, chromosome, create);
      var b := Births(ga, s, p, population, fitness, chromosome, |population|);
      r.Success? ==> b.Success? && forall i :: 0 <= i < |population| ==>
        WellBred(ga, population, fitness, chromosome, b.value.0[i])
        && r.value[i] == create(Chromosome(b.value.0[i].genes))
  {
    BirthsProperties(ga, s, p, population, fitness, chromosome, |population|);
  }

  /** A birth fails with the error of its first selection. */
  lemma BredFails<A>(ga: Engine, s: Stream, q: nat, population: seq<A>, fitness: A -> real, chromosome: A -> Chromosome)
    requires Selected(s, q, population, fitness).Failure?
    ensures Bred(ga, s, q, population, fitness, chromosome) == Failure(Selected(s, q, population, fitness).error)
  {
  }

  /** Unfolds one birth from its two selections. */
  lemma BredIs<A>(ga: Engine, s: Stream, q: nat, population: seq<A>, fitness: A -> real, chromosome: A -> Chromosome,
                  a: nat, b: nat)
    requires Selected(s, q, population, fitness) == Success(a)
    requires Selected(s, q + 1, population, fitness) == Success(b)
    ensures var child := Child(ga, s, q + 2, chromosome(population[a]).genes, chromosome(population[b]).genes);
      Bred(ga, s, q, population, fitness, chromosome) == Success((Birth(a, b, child.0), child.1))
  {
  }

  /** Lines 49-50 of the closure: cross the two parents, then mutate the child in place. */
  method MakeChild(ga: Engine, rng: Rng, a: Chromosome, b: Chromosome) returns (genes: seq<real>)
    requires 0.0 <= ga.mutation.chance <= 1.0
    modifies rng
    ensures (genes, rng.pos) == Child(ga, rng.stream, old(rng.pos), a.genes, b.genes)
  {
    var child := Crossover(rng, a, b);
    var buffer := new real[|child.genes|];
    forall j | 0 <= j < buffer.Length {
      buffer[j] := child.genes[j];
    }
    assert buffer[..] == child.genes;
    Mutate(ga.mutation, rng, buffer);
    genes := buffer[..];
  }

  /** One more birth extends the births so far, or fails with it. */
  lemma BirthsStep<A>(ga: Engine, s: Stream, p: nat, population: seq<A>, fitness: A -> real, chromosome: A -> Chromosome,
                      k: nat, births: seq<Birth>, q: nat)
    requires Births(ga, s, p, population, fitness, chromosome, k) == Success((births, q))
    ensures var next := Bred(ga, s, q, population, fitness, chromosome);
      Births(ga, s, p, population, fitness, chromosome, k + 1)
      == if next.Failure? then Failure(next.error) else Success((births + [next.value.0], next.value.1))
  {
  }

  lemma OffspringStep<A>(births: seq<Birth>, birth: Birth, create: Chromosome -> A)
    ensures Offspring(births + [birth], create) == Offspring(births, create) + [create(Chromosome(birth.genes))]
  {
  }

  /** The closure that `evolve` maps over the population: one birth, with draws from the shared generator. */
  method Breed<A>(ga: Engine, rng: Rng, population: seq<A>, fitness: A -> real, chromosome: A -> Chromosome)
    returns (r: Result<Birth, SelectError>)
    requires 0.0 <= ga.mutation.chance <= 1.0
    modifies rng
    ensures var bred := Bred(ga, rng.stream, old(rng.pos), population, fitness, chromosome);
      (bred.Failure? ==> r == Failure(bred.error))
      && (bred.Success? ==> r == Success(bred.value.0) && rng.pos == bred.value.1)
  {
    ghost var q := rng.pos;
    var a := Select(rng, population, fitness);
    if a.Failure? {
      BredFails(ga, rng.stream, q, population, fitness, chromosome);
      return Failure(a.error);
    }
    var birth := BreedWith(ga, rng, population, fitness, chromosome, q, a.value);
    r := Success(birth);
  }

  /** The rest of the closure once the first parent `a` is drawn at `q`: the second parent, then the child. */
  method BreedWith<A>(ga: Engine, rng: Rng, population: seq<A>, fitness: A -> real, chromosome: A -> Chromosome,
                      ghost q: nat, a: nat)
    returns (birth: Birth)
    requires 0.0 <= ga.mutation.chance <= 1.0
    requires rng.pos == q + 1 && Selected(rng.stream, q, population, fitness) == Success(a)
    modifies rng
    ensures var bred := Bred(ga, rng.stream, q, population, fitness, chromosome);
      bred == Success((birth, rng.pos))
  {
    var b := Select(rng, population, fitness);
    if b.Failure? {
      // selection fails on the weights alone, and the first selection succeeded
      assert false;
    }
    var child := MakeChild(ga, rng, chromosome(population[a]), chromosome(population[b.value]));
    birth := Birth(a, b.value, child);
    BredIs(ga, rng.stream, q, population, fitness, chromosome, a, b.value);
  }

  /** Breeds the child after the first `i`, extending the births so far or failing with them. */
  method BreedNext<A>(ga: Engine, rng: Rng, population: seq<A>, fitness: A -> real, chromosome: A -> Chromosome,
                      ghost p0: nat, ghost i: nat, ghost births: seq<Birth>)
    returns (birth: Result<Birth, SelectError>)
    requires 0.0 <= ga.mutation.chance <= 1.0
    requires Births(ga, rng.stream, p0, population, fitness, chromosome, i) == Success((births, rng.pos))
    modifies rng
    ensures birth.Failure? ==> Births(ga, rng.stream, p0, population, fitness, chromosome, i + 1) == Failure(birth.error)
    ensures birth.Success? ==>
      Births(ga, rng.stream, p0, population, fitness, chromosome, i + 1) == Success((births + [birth.value], rng.pos))
  {
    ghost var q := rng.pos;
    birth := Breed(ga, rng, population, fitness, chromosome);
    BirthsStep(ga, rng.stream, p0, population, fitness, chromosome, i, births, q);
  }

  /** `evolve` as the engine runs it: map over the population, drawing from the shared generator. */
  method Evolve<A>(ga: Engine, rng: Rng, population: seq<A>, fitness: A -> real,
                   chromosome: A -> Chromosome, create: Chromosome -> A) returns (r: Result<seq<A>, SelectError>)
    requires 0.0 <= ga.mutation.chance <= 1.0
    modifies rng
    ensures r == Evolved(ga, rng.stream, old(rng.pos), population, fitness, chromosome, create)
    ensures r.Success? ==>
      rng.pos == Births(ga, rng.stream, old(rng.pos), population, fitness, chromosome, |population|).value.1
  {
    ghost var p0 := rng.pos;
    ghost var births: seq<Birth> := [];
    var children: seq<A> := [];
    var i := 0;
    while i < |population|
      invariant 0 <= i <= |population|
      invariant Births(ga, rng.stream, p0, population, fitness, chromosome, i) == Success((births, rng.pos))
      invariant children == Offspring(births, create)
    {
      var birth := BreedNext(ga, rng, population, fitness, chromosome, p0, i, births);
      if birth.Failure? {
        BirthsFailureStays(ga, rng.stream, p0, population, fitness, chromosome, i + 1, |population|);
        return Failure(birth.error);
      }
      OffspringStep(births, birth.value, create);
      births := births + [birth.value];
      children := children + [create(Chromosome(birth.value.genes))];
      i := i + 1;
    }
    r := Success(children);
  }
}
