# step_env: one tick of the Biomaker CA world

This project models `step_env` of `self_organising_systems/biomakerca/step_maker.py`.
`step_env` is the per-tick orchestrator of the cellular-automaton world. It runs in this order:

1. It checks that reproduction, when enabled, has a mode to run in.
2. It picks the exclusive logic of materials, using a default when none is given.
3. It decodes the agents' programs into three role slices.
4. It runs the physics and agent phases in a fixed order: soil balancing, structural integrity, gravity, reproduction, parallel update, energy, exclusive update, aging.
5. It threads one random key linearly through the phases that consume randomness.
6. It nests the requested extras around the final environment: the program table, the intercept counter and the metrics.

The phases themselves live in files that are not part of this model, and so do the agents' logic and the mutators. Every collaborator call is therefore an uninterpreted `Event` that records all the arguments it received. An environment is either the caller's (`Given`) or the `Output` of such a call. The same holds for the programs, counter and metrics a call returns. A step is then fully described by two things: the list of calls it made (its trace) and the value it returned.

Files:

- `wrappers.dfy`: `Option` and `Result`.
- `keys.dfy`: the random key as a path in the binary tree of `jax.random.split`. It holds the split chain a step performs and proofs that the sub-keys it hands out are pairwise independent.
- `phases.dfy`: the collaborators' inputs and outputs. It contains the `Event` of each call, the role slices of `split_params_f`, and the phase kinds.
- `results.dfy`: the nested result (`Bare`/`Paired`). `Compose` builds it from the named parts and `Unpack` destructures it; the two are proved inverse in both directions.
- `step_maker.dfy`: the flags and `StepEnv`. `StepEnv` is the imperative step, statement by statement, and is proved equal to `Step`. `Step` is the specification: the same step as a chain of bindings over the calls of each phase. The properties of a step are lemmas about `Step`.

## Model

| member | source | states |
|---|---|---|
| StepMaker.DefaultOptions | self_organising_systems/biomakerca/step_maker.py:62-73 | the keyword defaults: default exclusive table, reproduction on, asexual mode only, sex matters, no mutation, no mutators, no intercept, no energy threshold, no budget, no metrics |
| StepMaker.ReproductionModeSelected | self_organising_systems/biomakerca/step_maker.py:125-126 | the asserted condition: reproduction is off, or asexual or sexual reproduction is enabled |
| StepMaker.MutatedReproduction | self_organising_systems/biomakerca/step_maker.py:148-159 | the branch condition of the mutated reproduction: reproduction on, no intercept, `mutate_programs` |
| StepMaker.ResultFlags | self_organising_systems/biomakerca/step_maker.py:191-193 | the three flags that decide the result's nesting, in order: `mutate_programs`, `intercept_reproduction`, `return_metrics` |
| StepMaker.Step | self_organising_systems/biomakerca/step_maker.py:125-194 | the specification of a step: the configuration check, then the calls of `StepCalls`, then the final environment with the requested parts nested around it |
| StepMaker.StepCalls | self_organising_systems/biomakerca/step_maker.py:127-189 | the calls of a step as a chain of bindings, each phase taking the previous output and each keyed phase the first half of a fresh split |
| StepMaker.DefaultExclTable | self_organising_systems/biomakerca/step_maker.py:128-129 | the default exclusive logic: AIR with the air cell operation, then EARTH with the earth cell operation |
| StepMaker.DecodeParams | self_organising_systems/biomakerca/step_maker.py:131-134 | the agents' parameters are the mutator's decoding of the programs when `mutate_programs` is set, the programs themselves otherwise |
| StepMaker.ReproductionEvent | self_organising_systems/biomakerca/step_maker.py:148-173 | the reproduction call the flags select: the intercept, the mutated update with its extra arguments, or the plain update |
| StepMaker.NamesBound | self_organising_systems/biomakerca/step_maker.py:131-193 | the flag combinations for which every name the step reads is bound: mutator when decoding (132), sexual mutator on the mutated branch (164), counter only after the intercept (155, 192), metrics only after the mutated branch (168, 193) |
| Phases.SplitParams | self_organising_systems/biomakerca/step_maker.py:135-136 | `split_params_f` cuts the parallel, exclusive and reproduce slices, in that order, out of the agents' parameters |
| Keys.Split | self_organising_systems/biomakerca/step_maker.py:139 | `jr.split` as the two children of the key in the binary split tree (also at lines 154, 158, 176 and 184) |
| StepMaker.StepEnv | self_organising_systems/biomakerca/step_maker.py:56-194 | fails exactly when reproduction has no mode; otherwise its calls and result are those of the specification `Step` |
| StepMaker.StepAborts | self_organising_systems/biomakerca/step_maker.py:125-126 | the step fails with `NoReproductionMode` exactly when reproduction is on and neither asexual nor sexual reproduction is enabled; it then makes no call and splits no key |
| StepMaker.StepPhaseOrder | self_organising_systems/biomakerca/step_maker.py:138-189 | the kinds of the calls are soil (only with a positive unbalance limit), integrity, gravity, reproduction (only with `do_reproduction`), parallel, energy, exclusive, aging; each occurs at most once, in that order, and exactly the scheduled phases occur |
| StepMaker.PhaseOrderWellFormed | self_organising_systems/biomakerca/step_maker.py:138-189 | the reference schedule is strictly ordered and holds exactly the scheduled phases |
| StepMaker.OrderDetermined | self_organising_systems/biomakerca/step_maker.py:138-189 | two strictly ordered schedules with the same phases are equal, so the canonical order plus the set of scheduled phases determines the schedule |
| StepMaker.StepCallsShape | self_organising_systems/biomakerca/step_maker.py:138-189 | each call of a step belongs to its phase and receives the environment the previous call returned; soil runs iff the limit is positive, reproduction iff `do_reproduction` |
| StepMaker.StepChained | self_organising_systems/biomakerca/step_maker.py:138-189 | the first call receives the caller's environment, every later call the environment its predecessor returned, and the result's environment is the last call's output |
| StepMaker.StepCallsForwarded | self_organising_systems/biomakerca/step_maker.py:127-189 | each call receives what `Forwarded` lists (see `StepForwards`) |
| StepMaker.StepForwards | self_organising_systems/biomakerca/step_maker.py:127-189 | soil balancing, structural integrity and energy receive the config, gravity and aging only its type definitions; the reproduction (intercept or update), parallel and exclusive calls receive the config and the agent logic; structural integrity runs 5 passes; the parallel, exclusive and reproduce slices of the decoded parameters each go only to their own phase; the exclusive update gets the given table, or the AIR/EARTH default when none is given; `n_sparse_max` goes to the reproduce, parallel and exclusive updates (the intercept has no such argument); `min_repr_energy_requirement` goes to the intercept; the mutated branch gets the caller's programs, the mutator, both reproduction flags, `does_sex_matter`, the sexual mutator and `return_metrics`, the unmutated branch none of these |
| StepMaker.KeysOfEarly | self_organising_systems/biomakerca/step_maker.py:143-145 | structural integrity and gravity take no key |
| StepMaker.KeysOfLate | self_organising_systems/biomakerca/step_maker.py:175-189 | of parallel, energy, exclusive and aging, only parallel and exclusive take a key, in that order |
| StepMaker.TraceKeys | self_organising_systems/biomakerca/step_maker.py:138-189 | the keys a step's calls receive are, in order, those of soil, reproduction (when present), parallel and exclusive |
| StepMaker.StepCallKeys | self_organising_systems/biomakerca/step_maker.py:138-186 | those keys are the sub-keys of one chain of `[limit>0] + [do_reproduction] + 2` splits from the step's key |
| StepMaker.StepKeys | self_organising_systems/biomakerca/step_maker.py:138-186 | the keys received by the calls are exactly the split chain's sub-keys, pairwise independent and all descended from the step's key, so no key reaches two phases |
| StepMaker.StepOutputs | self_organising_systems/biomakerca/step_maker.py:150-194 | the result nests programs, counter and metrics iff their flags are set, in that order; it unpacks to the last environment, the reproduced programs on the mutated branch and the caller's programs otherwise, the intercept's counter and the mutated reproduction's metrics |
| StepMaker.DefaultOptionsValid | self_organising_systems/biomakerca/step_maker.py:62-73 | the default keyword arguments pass the configuration check and bind every name the step reads |
| Keys.SplitChildren | self_organising_systems/biomakerca/step_maker.py:139 | both halves of a split descend from the split key and are independent of each other |
| Keys.SplitChain | self_organising_systems/biomakerca/step_maker.py:138-186 | `n` successive `sub, key = split(key)` steps hand out exactly `n` sub-keys |
| Keys.SplitChainFirst | self_organising_systems/biomakerca/step_maker.py:138-186 | a chain of `n + 1` splits is one split followed by a chain of `n` from its second half, which is how the step carries its key |
| Keys.ChainShape | self_organising_systems/biomakerca/step_maker.py:138-186 | the carried key keeps taking the second half; the `i`-th sub-key is the first half of the key carried after `i` splits |
| Keys.ChainIndependent | self_organising_systems/biomakerca/step_maker.py:138-186 | the sub-keys of a split chain are pairwise independent, all descend from the starting key and are independent of the key carried on |
| Results.Compose | self_organising_systems/biomakerca/step_maker.py:191-193 | the composed result's nesting is programs, counter, metrics, each present iff requested, around the environment |
| Results.Unpack | self_organising_systems/biomakerca/step_maker.py:191-194 | a result of the expected nesting destructures into parts that are present exactly as the flags say, around the same environment |
| Results.UnpackCompose | self_organising_systems/biomakerca/step_maker.py:191-194 | destructuring a composed result gives back the composed parts |
| Results.ComposeUnpack | self_organising_systems/biomakerca/step_maker.py:191-194 | composing the destructured parts rebuilds the result |

The configuration check at lines 125-126 is modelled as a `Failure(NoReproductionMode)` result with an empty trace.

Some combinations of flags make the source read a name that was never bound, or dereference a `None` collaborator. The step's precondition `ReproductionModeSelected(o) ==> NamesBound(o)` excludes those calls:

- the mutator is needed when `mutate_programs` is set (line 132);
- the sexual mutator is needed on the mutated reproduction branch (line 164);
- `n_successful_repr` is bound only when the intercept ran, so `intercept_reproduction` needs `do_reproduction` (lines 155 and 192);
- `metrics` is bound only on the mutated branch, so `return_metrics` needs `do_reproduction`, no intercept and `mutate_programs` (lines 168 and 193).

The precondition applies only when the check at line 125 passes, because that check fires first.

Two behaviours of the code are worth stating plainly:

- The mutated branch dereferences `sexual_mutator.mutate` (line 164) whether or not sexual reproduction is enabled, so a sexual mutator is needed on every mutated reproduction.
- The program table is paired onto the result whenever `mutate_programs` is set (line 191). When reproduction is off or intercepted, that table is the caller's, unchanged.

The function's own "Returns" documentation (lines 121-123) names only the environment and the intercept counter. The code also returns the program table (line 191) and the metrics (line 193), and the model follows the code.

On the unmutated reproduction branch (lines 172-173), `enable_asexual_reproduction`, `enable_sexual_reproduction` and `does_sex_matter` are not passed to the update at all. The check at line 125 still demands that one of the two modes be enabled. The model keeps both: `ReproductionEvent` forwards the flags only on the mutated branch, and `Step` fails without a mode on every branch.

## Left out

- The bodies of the collaborators are not part of this model. This covers `balance_soil`, the structural-integrity, gravity, reproduce, parallel and exclusive updates, `intercept_reproduce_ops`, `process_energy` and `env_increase_age`, which are uninterpreted events. Nothing is said about energy or material conservation, sparse-selection policy or tie-breaking.
- The internals of `Mutator`, `SexualMutator` and `AgentLogic` (`mutate`, `split_params`, `split_params_f`, `par_f`, `excl_f`, `repr_f`, `get_sex`) are opaque collaborators. The decoded parameters and their three slices are symbolic terms that record their origin.
- `jax.random` internals are not modelled. A key is a path in the binary split tree, and `split` extends it by one step to the left and to the right.
- `jax.jit`, `vmap` and the static-argument machinery are compilation and batching, not logic.
- The grid and cell representation of the environment and of `EnvConfig` are left out. Only `soil_unbalance_limit` and the AIR and EARTH type tags are visible; everything else is an opaque identity forwarded as is.
- `min_repr_energy_requirement` is forwarded unchanged to the intercept. The documentation says it must be set when intercepting, but the code does not check it, and what the intercept does with `None` lies outside this model.
- The floating-point comparison `soil_unbalance_limit > 0` is modelled on `real`.
- The result is a datatype whose parts are tagged (`ProgramsPart`, `CountPart`, `MetricsPart`). The source's untagged nested tuples carry the same nesting, but their parts are told apart only by position.
