# learn-to-fly: genetic algorithm and neural network, modelled in Dafny

This project models the two libraries at the heart of learn-to-fly. It proves properties of the model.

- **The genetic-algorithm engine** (`libs/genetic-algorithm/src/lib.rs`). A chromosome is a flat vector of genes. `evolve` builds each child of the next generation in four steps:
  1. it picks two parents by roulette-wheel selection, which is `choose_weighted` with the fitness as weight;
  2. it crosses the parents gene by gene with a fair coin (uniform crossover);
  3. it mutates the child in place: each gene gets a random sign, a `chance` coin and, when that coin comes up, a shift of `sign * coeff * u`;
  4. it turns the child into an agent with `Agent::create`.
- **The feed-forward neural network** (`libs/neural-network/src/lib.rs`). A neuron's output is the ReLU of its bias plus the dot product of its weights and inputs. A layer applies every neuron to the same input. A network folds its input through its layers in order. `random` builds layers from the adjacent pairs of a topology list, with every parameter drawn from [-1, 1].

## How the model is organised

- `random.dfy` (module `Random`) models the generator that every operation threads through.
  - A seeded generator is an infinite stream of uniform draws in [0, 1) plus a cursor.
  - Each call into `rand` takes one draw: `gen_bool`, `gen::<f32>`, `gen_range` and the uniform sample inside `choose_weighted`.
  - `Rng` is the mutable handle (`&mut dyn RngCore`) as a class with a cursor field.
- `genetic_algorithm.dfy` (module `GeneticAlgorithm`). The source is mixed, and so is the model.
  - Every operation that draws randomness is a pure function of the stream and the cursor. It returns the cursor after its draws, and it is the specification the lemmas talk about.
  - A method over `Rng` does in steps what the engine does: `Crossover`, `Mutate`, `Select`, `Evolve` and the closure body `Breed`. Each method is proved equal to its function.
  - `Mutate` overwrites an `array<real>` in place, loop by loop, as `iter_mut` does.
- `neural_network.dfy` (module `NeuralNetwork`). The source is pure, so the model is datatypes and functions.
  - Each `random` constructor is a function of the stream and the cursor.
  - Layers, neurons and weights are drawn in the order the source's `map`/`collect` draws them.
- `wrappers.dfy` holds `Option` and `Result`.
  - A panic of the source becomes an error value: the `unwrap` of a failed `choose_weighted`, and `GaussianMutation::new`'s assertion.
  - The assertion in `Neuron::propagate` is a precondition instead. The model proves that every network `random` builds meets it.

Choices the model makes:

- **`choose_weighted`.** It follows `rand`'s `WeightedIndex`.
  - The checks come in this order: no items, then a negative weight, then an all-zero total.
  - The sample is `total * u`. The chosen index `k` is the one whose slot `[Sum(w[..k]), Sum(w[..k+1]))` holds the sample. `rand` finds it by binary search over the cumulative weights. `Pick` finds it by a linear walk, and `PickUnique` shows that it is the unique such index.
- **`evolve` on an empty population** returns an empty vector and draws nothing.
- **Agents.** `Agent::fitness`, `Agent::chromosome` and `Agent::create` are function parameters.
- **The neuron test.** The test compares `propagate` against the expression `(-0.3*0.5)+(0.8*1.0)+(0.9*2.0)+0.5`. `NeuralNetwork.NeuronTest` proves the output equals that expression and that its value is 2.95. The dot product alone is 2.45.
- **i32 neuron counts.** `LayerTopology.neurons` is an `i32`. A negative count gives an empty range in `0..n`, so it is modelled by `Count(n) = max(0, n)`.

## Model

| member | source | states |
|---|---|---|
| GeneticAlgorithm.NewGaussianMutation | libs/genetic-algorithm/src/lib.rs:88-90 | construction succeeds exactly when 0 <= chance <= 1, and then stores chance and coeff unchanged |
| GeneticAlgorithm.CheckWeights | libs/genetic-algorithm/src/lib.rs:63 | the weighted choice is defined exactly when there is an item, no weight is negative and the total is positive; the error is NoItem exactly for an empty list |
| GeneticAlgorithm.Pick | libs/genetic-algorithm/src/lib.rs:63 | the chosen index is in range, has a positive weight, and its slot on the wheel holds the sample |
| GeneticAlgorithm.PickUnique | libs/genetic-algorithm/src/lib.rs:63 | the slots partition [0, total): any index whose slot holds the sample is the chosen one |
| GeneticAlgorithm.Selected | libs/genetic-algorithm/src/lib.rs:62-65 | selection succeeds exactly when the weighted choice is defined; a failure carries the choice's error; a success is an index into the population whose fitness is positive |
| GeneticAlgorithm.SelectedSlot | libs/genetic-algorithm/src/lib.rs:62-65 | for every k, individual k is selected exactly when the scaled draw lies in k's slot of the wheel |
| GeneticAlgorithm.SelectedDegenerate | libs/genetic-algorithm/src/lib.rs:62-65 | when every fitness is zero, selection fails (a panic in the source); the error is NoItem exactly when the population is empty |
| GeneticAlgorithm.TestPopulationWeights | libs/genetic-algorithm/src/lib.rs:140-141 | the test population 0, 1, ..., 9 has total fitness 45 and selection over it succeeds |
| GeneticAlgorithm.TestPopulationSlot | libs/genetic-algorithm/src/lib.rs:140-158 | individual k of the test population is selected exactly when k(k-1) <= 90u < k(k+1) |
| GeneticAlgorithm.SelectedTestPopulation | libs/genetic-algorithm/src/lib.rs:138-160 | on the test population, selection never picks fitness 0 (no key 0 in the expected histogram), and picks k exactly on a draw interval of width k/45 |
| GeneticAlgorithm.Select | libs/genetic-algorithm/src/lib.rs:62-65 | the method over the shared generator returns what Selected specifies, taking one draw on success |
| GeneticAlgorithm.Crossed | libs/genetic-algorithm/src/lib.rs:74-76 | the child is as long as the shorter parent (`zip`) |
| GeneticAlgorithm.CrossedAt | libs/genetic-algorithm/src/lib.rs:75 | gene i of the child is parent A's when coin i is true and parent B's otherwise, one coin per position |
| GeneticAlgorithm.CrossedFromParents | libs/genetic-algorithm/src/lib.rs:75 | parents of equal length give a child of that length; every child gene is a[i] or b[i] |
| GeneticAlgorithm.CrossedSelf | libs/genetic-algorithm/src/lib.rs:75 | crossing a chromosome with itself gives it back, whatever the draws |
| GeneticAlgorithm.Crossover | libs/genetic-algorithm/src/lib.rs:74-76 | the method returns Crossed's child and advances the generator by one draw per gene |
| GeneticAlgorithm.Perturbation | libs/genetic-algorithm/src/lib.rs:96-98 | the shift sign * coeff * u is at most abs(coeff) in size |
| GeneticAlgorithm.MutatedGene | libs/genetic-algorithm/src/lib.rs:96-99 | a gene whose chance coin is false is unchanged and costs two draws; otherwise it moves by the signed shift and costs three; either way it moves by at most abs(coeff) |
| GeneticAlgorithm.Mutated | libs/genetic-algorithm/src/lib.rs:94-101 | mutation keeps the length and takes between two and three draws per gene |
| GeneticAlgorithm.MutatedAt | libs/genetic-algorithm/src/lib.rs:95-99 | gene i is mutated by the draws that follow those of the genes before it |
| GeneticAlgorithm.MutatedBounded | libs/genetic-algorithm/src/lib.rs:96-98 | no gene moves by more than abs(coeff) |
| GeneticAlgorithm.MutatedWithoutChance | libs/genetic-algorithm/src/lib.rs:97 | with chance 0 the chromosome is unchanged, after two draws per gene |
| GeneticAlgorithm.MutatedSnoc | libs/genetic-algorithm/src/lib.rs:95-100 | mutating one more gene appends that gene mutated with the next draws |
| GeneticAlgorithm.MutateGene | libs/genetic-algorithm/src/lib.rs:96-99 | one pass of the loop body returns MutatedGene's gene and advances the generator by its draw count |
| GeneticAlgorithm.Mutate | libs/genetic-algorithm/src/lib.rs:94-101 | the in-place loop leaves the array equal to Mutated of its old contents, with the generator at Mutated's cursor |
| GeneticAlgorithm.ChildNearParents | libs/genetic-algorithm/src/lib.rs:49-50 | a crossed-then-mutated child is as long as the shorter parent, and each gene is within abs(coeff) of a parent's gene at that position |
| GeneticAlgorithm.BredWellBred | libs/genetic-algorithm/src/lib.rs:47-51 | a birth's two parents are in the population, both have positive fitness, and the child is near them |
| GeneticAlgorithm.Births | libs/genetic-algorithm/src/lib.rs:46-52 | k successful passes of the closure give k births |
| GeneticAlgorithm.BirthsFailureStays | libs/genetic-algorithm/src/lib.rs:46-52 | once a pass panics, the generation has panicked with that error |
| GeneticAlgorithm.BirthsProperties | libs/genetic-algorithm/src/lib.rs:46-52 | k passes succeed exactly when k = 0 or selection is defined; a failure carries the weighted choice's error; every birth is well bred |
| GeneticAlgorithm.EvolvedProperties | libs/genetic-algorithm/src/lib.rs:45-53 | evolve succeeds exactly when the population is empty or selection is defined, and fails with the choice's error otherwise; it returns one agent per slot; agent i is `create` of birth i's genes, and that birth is well bred |
| GeneticAlgorithm.BredFails | libs/genetic-algorithm/src/lib.rs:47 | a pass fails with the error of its first selection |
| GeneticAlgorithm.BredIs | libs/genetic-algorithm/src/lib.rs:47-51 | a pass is two selections, then the crossed and mutated child of the two chromosomes |
| GeneticAlgorithm.BirthsStep | libs/genetic-algorithm/src/lib.rs:46-52 | one more pass extends the births so far, or fails with that pass |
| GeneticAlgorithm.OffspringStep | libs/genetic-algorithm/src/lib.rs:51-52 | creating one more agent appends it to those created so far |
| GeneticAlgorithm.MakeChild | libs/genetic-algorithm/src/lib.rs:49-50 | the method crosses, then mutates the child in place, and gives Child's genes and cursor |
| GeneticAlgorithm.Breed | libs/genetic-algorithm/src/lib.rs:46-51 | the closure over the shared generator fails as Bred does, or returns Bred's birth with the generator at Bred's cursor |
| GeneticAlgorithm.BreedWith | libs/genetic-algorithm/src/lib.rs:48-51 | once parent A is drawn, the second selection cannot fail, and the rest of the closure returns Bred's birth |
| GeneticAlgorithm.BreedNext | libs/genetic-algorithm/src/lib.rs:46-52 | the closure's next pass extends Births by one, or fails as Births does |
| GeneticAlgorithm.Evolve | libs/genetic-algorithm/src/lib.rs:45-53 | the method over the shared generator returns exactly Evolved, and on success leaves the generator after the generation's draws |
| NeuralNetwork.PropagateNeuron | libs/neural-network/src/lib.rs:43-49 | the output is max(0, bias + dot product): never negative, at least the pre-activation, and equal to 0 or to the pre-activation; one input per weight is required |
| NeuralNetwork.PropagateNeuronPositive | libs/neural-network/src/lib.rs:48 | the output is positive exactly when the pre-activation is, and then equals it |
| NeuralNetwork.NeuronTest | libs/neural-network/src/lib.rs:70-90 | bias 0.5 and weights [-0.3, 0.8, 0.9] give 0 on [-10, -10, -10]; on [0.5, 1.0, 2.0] they give the test's expression, whose value is 2.95 |
| NeuralNetwork.PropagateLayer | libs/neural-network/src/lib.rs:28-30 | one output per neuron; output i is neuron i on the shared input, and is never negative |
| NeuralNetwork.Fold | libs/neural-network/src/lib.rs:13-15 | no layers return the input; otherwise the output is as wide as the last layer, and no entry is negative |
| NeuralNetwork.FoldAppend | libs/neural-network/src/lib.rs:14 | folding through front + back is folding through front, then through back |
| NeuralNetwork.PropagateNetworkShape | libs/neural-network/src/lib.rs:13-15 | a network without layers is the identity; otherwise the output is as wide as the last layer and never negative |
| NeuralNetwork.RandomParameter | libs/neural-network/src/lib.rs:52-53 | a drawn parameter lies in [-1, 1] |
| NeuralNetwork.RandomNeuron | libs/neural-network/src/lib.rs:51-58 | the bias is the first draw, and weight j is draw j + 1; there is one weight per input (none for a negative size), all parameters are in [-1, 1], and the cursor moves by 1 + the input size |
| NeuralNetwork.RandomNeurons | libs/neural-network/src/lib.rs:33 | k neurons built one after another, each with input-size weights in [-1, 1], using k * (1 + input size) draws |
| NeuralNetwork.RandomLayer | libs/neural-network/src/lib.rs:32-34 | the layer has output-size neurons, each taking input-size inputs, all parameters in [-1, 1] |
| NeuralNetwork.RandomLayers | libs/neural-network/src/lib.rs:17-19 | one layer per adjacent topology pair (none for fewer than two entries); layer k has topology[k+1] neurons of topology[k] weights, all parameters in [-1, 1] |
| NeuralNetwork.ShapedAccepts | libs/neural-network/src/lib.rs:18 | layers whose shapes follow the topology chain accept an input as wide as the first entry |
| NeuralNetwork.RandomNetworkShape | libs/neural-network/src/lib.rs:17-19 | a random network has one layer fewer than the topology, all parameters in [-1, 1], and accepts an input as wide as the first entry (the neuron assertion never trips); its output is as wide as the last entry and never negative |
| Random.UniformIn | libs/neural-network/src/lib.rs:52 | `gen_range(lo..=hi)` from one draw lies in [lo, hi] |
| Random.UniformBelow | libs/genetic-algorithm/src/lib.rs:63 | the sample of the weighted choice lies in [0, total) |
| Random.Rng.Gen | libs/genetic-algorithm/src/lib.rs:98 | `gen::<f32>` returns the next draw and advances the cursor by one |
| Random.Rng.GenBool | libs/genetic-algorithm/src/lib.rs:96-97 | `gen_bool(p)` is true exactly when the next draw is below p, and advances the cursor by one |

## Left out

- Floating point: genes, fitness values, weights and signals are reals. f32 rounding, NaN and infinities are not modelled. The `approx` tolerance of the neuron test is not modelled either; the model proves exact equality.
- The exact bits that ChaCha8 and `rand` consume: each call into `rand` takes one abstract draw. So the model does not reproduce the histogram counts of the selection test (libs/genetic-algorithm/src/lib.rs:148-158). It does prove the slot widths that make those counts proportional to fitness. Statistical distribution claims are not statements about single runs.
- Random.UniformIn: the inclusive upper end of `gen_range(lo..=hi)` is never drawn, because a draw lies in [0, 1). The contract still states the closed interval that the source promises.
- GeneticAlgorithm.Pick: `rand` finds the index by binary search over cumulative weights, while `Pick` walks the list. `PickUnique` proves both give the same index.
- Trait-object plumbing (`Box<dyn …>`, the generic selection type `S`, the `Individual` trait) is left out. Each strategy is a datatype with its one implementation, and the agent's methods are function parameters.
- GeneticAlgorithm.Engine: `GeneticAlgorithm::new` (libs/genetic-algorithm/src/lib.rs:40-44) only stores its arguments, so it is modelled by the `Engine` datatype's constructor, which has no contract.
- GeneticAlgorithm.Chromosome: `len`, `iter`, `iter_mut` and `from_iter` (libs/genetic-algorithm/src/lib.rs:4-24) are the datatype's length, its sequence and its constructor. `iter_mut` is the in-place loop of `Mutate`.
- GeneticAlgorithm.Mutate, GeneticAlgorithm.MutateGene, GeneticAlgorithm.Evolve: they require 0 <= chance <= 1. `gen_bool` panics outside that range, and `GaussianMutation::new` is the only constructor and asserts it.
- Panics: a panic is the model's `Failure`. The generator's position after a panic is not specified, because the source aborts.
- The test-only `TestAgent` (libs/genetic-algorithm/src/lib.rs:113-135) is left out: its `chromosome` and `create` are unimplemented. Its fitness is modelled by the identity function in the selection-test lemmas.
- NeuralNetwork.PropagateNeuron: the `assert_eq!` on the input length is a precondition, not a modelled panic. `RandomNetworkShape` proves that random networks always meet it.
- libs/simulation/src/lib.rs and libs/simulation-wasm/src/lib.rs are not part of this model. They hold only struct declarations, a point addition and a wasm host binding over `thread_rng`.
- No encoding between a chromosome and a network's weights exists in the source, and none is modelled.
