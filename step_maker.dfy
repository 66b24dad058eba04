/**
 * `step_env`: one tick of the world. It checks the reproduction flags, decodes
 * the agents' parameters into role slices, runs the phases in a fixed order
 * while threading a random key through them, and nests the requested extras
 * around the final environment.
 */
module StepMaker {
  import opened Wrappers
  import opened Keys
  import opened Phases
  import opened Results

  /** The keyword arguments of `step_env`. */
  datatype Options = Options(
    exclFs: Option<ExclTable>,
    doReproduction: bool,
    enableAsexualReproduction: bool,
    enableSexualReproduction: bool,
    doesSexMatter: bool,
    mutatePrograms: bool,
    mutator: Option<Mutator>,
    sexualMutator: Option<SexualMutator>,
    interceptReproduction: bool,
    minReprEnergyRequirement: Option<real>,
    nSparseMax: Option<int>,
    returnMetrics: bool)

  /** The defaults of the keyword arguments. */
  function DefaultOptions(): Options {
    Options(
      exclFs := None,
      doReproduction := true,
      enableAsexualReproduction := true,
      enableSexualReproduction := false,
      doesSexMatter := true,
      mutatePrograms := false,
      mutator := None,
      sexualMutator := None,
      interceptReproduction := false,
      minReprEnergyRequirement := None,
      nSparseMax := None,
      returnMetrics := false)
  }

  /** The one configuration error `step_env` checks before doing anything. */
  datatype StepError = NoReproductionMode

  /** Reproduction, if enabled, has at least one mode to run in. */
  predicate ReproductionModeSelected(o: Options) {
    !o.doReproduction || o.enableAsexualReproduction || o.enableSexualReproduction
  }

  /** The only branch that reproduces with mutation (and the only one that can produce metrics). */
  predicate MutatedReproduction(o: Options) {
    o.doReproduction && !o.interceptReproduction && o.mutatePrograms
  }

  /**
   * Every name the step reads is bound and every collaborator it dereferences is
   * present: the mutator when programs are decoded, the sexual mutator on the
   * mutated reproduction branch whatever the sexual flag says, the counter only
   * after an intercepted reproduction, the metrics only after a mutated one.
   */
  predicate NamesBound(o: Options) {
    (o.mutatePrograms ==> o.mutator.Some?)
    && (MutatedReproduction(o) ==> o.sexualMutator.Some?)
    && (o.interceptReproduction ==> o.doReproduction)
    && (o.returnMetrics ==> MutatedReproduction(o))
  }

  /** The exclusive logic of materials: AIR spreads, EARTH falls like sand. */
  function DefaultExclTable(config: Config): ExclTable {
    [(config.etd.airType, AirCellOp), (config.etd.earthType, EarthCellOp)]
  }

  /** The agents' functional parameters: decoded by the mutator when programs mutate, the stored rows otherwise. */
  function DecodeParams(programs: Programs, o: Options): AgentParams
    requires o.mutatePrograms ==> o.mutator.Some?
  {
    if o.mutatePrograms then Decoded(o.mutator.value, programs) else Stored(programs)
  }

  /** Which flags decide the result's nesting. */
  function ResultFlags(o: Options): Flags {
    Flags(o.mutatePrograms, o.interceptReproduction, o.returnMetrics)
  }

  // ----- The phase schedule -----

  /** Whether a phase runs in a step at all. */
  predicate Scheduled(k: PhaseKind, config: Config, o: Options) {
    match k
    case SoilPhase => config.soilUnbalanceLimit > 0.0
    case ReproductionPhase => o.doReproduction
    case _ => true
  }

  /** The position of a phase in the canonical order. */
  function Rank(k: PhaseKind): nat {
    match k
    case SoilPhase => 0
    case IntegrityPhase => 1
    case GravityPhase => 2
    case ReproductionPhase => 3
    case ParallelPhase => 4
    case EnergyPhase => 5
    case ExclusivePhase => 6
    case AgingPhase => 7
  }

  /** Each phase at most once, and in the canonical order. */
  predicate StrictlyOrdered(ks: seq<PhaseKind>) {
    forall i, j :: 0 <= i < j < |ks| ==> Rank(ks[i]) < Rank(ks[j])
  }

  /** The schedule of a step, as a reference sequence. */
  function PhaseOrder(config: Config, o: Options): seq<PhaseKind> {
    (if config.soilUnbalanceLimit > 0.0 then [SoilPhase] else [])
    + [IntegrityPhase, GravityPhase]
    + (if o.doReproduction then [ReproductionPhase] else [])
    + [ParallelPhase, EnergyPhase, ExclusivePhase, AgingPhase]
  }

  /** How many times a step splits its key. */
  function SplitCount(config: Config, o: Options): nat {
    (if config.soilUnbalanceLimit > 0.0 then 1 else 0) + (if o.doReproduction then 1 else 0) + 2
  }

  // ----- Views of a trace of collaborator calls -----

  /** The phase of each call, in order. */
  function Kinds(t: seq<Event>): seq<PhaseKind> {
    seq(|t|, i requires 0 <= i < |t| => KindOf(t[i]))
  }

  /** The keys the calls received, in order. */
  function KeysOf(t: seq<Event>): seq<Key> {
    if t == [] then []
    else KeysOf(t[..|t| - 1]) + (if TakesKey(t[|t| - 1]) then [t[|t| - 1].key] else [])
  }

  /** Each call receives the environment the previous call returned; the first receives `start`. */
  predicate Chained(start: Env, t: seq<Event>) {
    (t != [] ==> t[0].input == start)
    && forall i :: 0 < i < |t| ==> t[i].input == Output(t[i - 1])
  }

  /**
   * What a call must have received from the step: the step's config (only
   * its type definitions, for gravity and aging); the agent logic (only the
   * reproduction, parallel and exclusive calls take it); exactly 5
   * structural-integrity passes; the role slice belonging to its phase; the
   * exclusive table (the default one when none is given); the operation
   * budget for the reproduce, parallel and exclusive updates; and the
   * reproduction branch the flags select, with that branch's arguments.
   */
  predicate Forwarded(e: Event, config: Config, logic: AgentLogic, programs: Programs, o: Options)
    requires NamesBound(o)
  {
    var slices := SplitParams(logic, DecodeParams(programs, o));
    match e
    case BalanceSoil(_, _, c) => c == config
    case ProcessStructuralIntegrity(_, c, passes) => c == config && passes == 5
    case ProcessGravity(_, etd) => etd == config.etd
    case InterceptReproduceOps(_, _, p, c, l, minEnergy) =>
      o.doReproduction && o.interceptReproduction && p == slices.2 && c == config && l == logic
      && minEnergy == o.minReprEnergyRequirement
    case PerformReproduceUpdate(_, _, p, c, l, mutation, budget) =>
      o.doReproduction && !o.interceptReproduction && p == slices.2 && c == config && l == logic && budget == o.nSparseMax
      && mutation == (if o.mutatePrograms then
                        Some(MutationArgs(programs, o.mutator.value,
                          o.enableAsexualReproduction, o.enableSexualReproduction, o.doesSexMatter,
                          o.sexualMutator.value, o.returnMetrics))
                      else None)
    case PerformParallelUpdate(_, _, p, c, l, budget) =>
      p == slices.0 && c == config && l == logic && budget == o.nSparseMax
    case ProcessEnergy(_, c) => c == config
    case PerformExclusiveUpdate(_, _, p, c, table, l, budget) =>
      p == slices.1 && c == config && l == logic && budget == o.nSparseMax
      && table == (if o.exclFs.None? then DefaultExclTable(config) else o.exclFs.value)
    case IncreaseAge(_, etd) => etd == config.etd
  }

  // ----- The step -----

  /** What a step produces: its value, and the collaborator calls it made, in order. */
  datatype Run = Run(out: Result<StepResult, StepError>, trace: seq<Event>)

  /** The call the reproduction branch selected by the flags makes. */
  function ReproductionEvent(env: Env, key: Key, params: RoleParams, config: Config, logic: AgentLogic,
                             programs: Programs, o: Options): Event
    requires NamesBound(o) && o.doReproduction
  {
    if o.interceptReproduction then
      InterceptReproduceOps(env, key, params, config, logic, o.minReprEnergyRequirement)
    else if o.mutatePrograms then
      PerformReproduceUpdate(env, key, params, config, logic,
        Some(MutationArgs(programs, o.mutator.value,
          o.enableAsexualReproduction, o.enableSexualReproduction, o.doesSexMatter,
          o.sexualMutator.value, o.returnMetrics)),
        o.nSparseMax)
    else
      PerformReproduceUpdate(env, key, params, config, logic, None, o.nSparseMax)
  }

  /** Where the reproduction call sits in a step's trace. */
  function ReproductionSlot(config: Config): nat {
    if config.soilUnbalanceLimit > 0.0 then 3 else 2
  }

  /** The calls of one step, one per phase; a phase that does not run has none. */
  datatype PhaseCalls = PhaseCalls(
    soil: Option<Event>, integrity: Event, gravity: Event, repro: Option<Event>,
    parallel: Event, energy: Event, exclusive: Event, aging: Event)
  {
    /** The calls in the order they are made. */
    function Trace(): seq<Event> {
      var t0: seq<Event> := [];
      var t1 := if soil.Some? then t0 + [soil.value] else t0;
      var t3 := t1 + [integrity] + [gravity];
      var t4 := if repro.Some? then t3 + [repro.value] else t3;
      t4 + [parallel] + [energy] + [exclusive] + [aging]
    }

    /** Each call belongs to the phase it stands for. */
    predicate WellKinded() {
      (soil.Some? ==> KindOf(soil.value) == SoilPhase)
      && KindOf(integrity) == IntegrityPhase && KindOf(gravity) == GravityPhase
      && (repro.Some? ==> KindOf(repro.value) == ReproductionPhase)
      && KindOf(parallel) == ParallelPhase && KindOf(energy) == EnergyPhase
      && KindOf(exclusive) == ExclusivePhase && KindOf(aging) == AgingPhase
    }

    /** Each call receives the environment the call before it returned, the first one `start`. */
    predicate Linked(start: Env) {
      (soil.Some? ==> soil.value.input == start)
      && integrity.input == (if soil.Some? then Output(soil.value) else start)
      && gravity.input == Output(integrity)
      && (repro.Some? ==> repro.value.input == Output(gravity))
      && parallel.input == (if repro.Some? then Output(repro.value) else Output(gravity))
      && energy.input == Output(parallel)
      && exclusive.input == Output(energy)
      && aging.input == Output(exclusive)
    }
  }

  /**
   * The calls of one step as a chain of bindings: each phase receives the
   * environment the previous one returned, each key-consuming phase the first
   * child of a fresh split of the carried key, which becomes the second child.
   */
  function StepCalls(key0: Key, env0: Env, config: Config, logic: AgentLogic, programs0: Programs, o: Options): PhaseCalls
    requires NamesBound(o)
  {
    var exclFs := if o.exclFs.None? then DefaultExclTable(config) else o.exclFs.value;
    var slices := SplitParams(logic, DecodeParams(programs0, o));
    var balance := config.soilUnbalanceLimit > 0.0;
    var soil := if balance then Some(BalanceSoil(env0, Split(key0).0, config)) else None;
    var env1 := if balance then Output(soil.value) else env0;
    var key1 := if balance then Split(key0).1 else key0;
    var integrity := ProcessStructuralIntegrity(env1, config, 5);
    var gravity := ProcessGravity(Output(integrity), config.etd);
    var repro := if o.doReproduction
      then Some(ReproductionEvent(Output(gravity), Split(key1).0, slices.2, config, logic, programs0, o))
      else None;
    var env4 := if o.doReproduction then Output(repro.value) else Output(gravity);
    var key2 := if o.doReproduction then Split(key1).1 else key1;
    var parallel := PerformParallelUpdate(env4, Split(key2).0, slices.0, config, logic, o.nSparseMax);
    var energy := ProcessEnergy(Output(parallel), config);
    var exclusive := PerformExclusiveUpdate(Output(energy), Split(Split(key2).1).0, slices.1, config, exclFs, logic, o.nSparseMax);
    var aging := IncreaseAge(Output(exclusive), config.etd);
    PhaseCalls(soil, integrity, gravity, repro, parallel, energy, exclusive, aging)
  }

  /**
   * One step: the configuration check, then the calls, then the final
   * environment with the requested extras nested around it.
   */
  function Step(key0: Key, env0: Env, config: Config, logic: AgentLogic, programs0: Programs, o: Options): Run
    requires ReproductionModeSelected(o) ==> NamesBound(o)
  {
    if !ReproductionModeSelected(o) then Run(Failure(NoReproductionMode), [])
    else
      var c := StepCalls(key0, env0, config, logic, programs0, o);
      var outputs := Outputs(
        Output(c.aging),
        if !o.mutatePrograms then None
        else if MutatedReproduction(o) then Some(ReproducedPrograms(c.repro.value))
        else Some(programs0),
        if o.interceptReproduction then Some(SuccessfulReproductions(c.repro.value)) else None,
        if o.returnMetrics then Some(ReproductionMetrics(c.repro.value)) else None);
      Run(Success(Compose(ResultFlags(o), outputs)), c.Trace())
  }

  /**
   * One step of the environment, statement by statement. `trace` lists the
   * collaborator calls made, in order.
   */
  method StepEnv(key0: Key, env0: Env, config: Config, logic: AgentLogic, programs0: Programs, o: Options)
    returns (out: Result<StepResult, StepError>, trace: seq<Event>)
    requires ReproductionModeSelected(o) ==> NamesBound(o)
    ensures out.Failure? <==> !ReproductionModeSelected(o)
    ensures Run(out, trace) == Step(key0, env0, config, logic, programs0, o)
  {
    if !ReproductionModeSelected(o) {
      return Failure(NoReproductionMode), [];
    }
    var exclFs := if o.exclFs.None? then DefaultExclTable(config) else o.exclFs.value;
    var slices := SplitParams(logic, DecodeParams(programs0, o));
    var parPrograms, exclPrograms, reprPrograms := slices.0, slices.1, slices.2;

    var key, env, programs := key0, env0, programs0;
    var nSuccessfulRepr: Option<Count> := None;
    var metrics: Option<Metrics> := None;
    var ku: Key;
    var e: Event;
    trace := [];

    if config.soilUnbalanceLimit > 0.0 {
      ku, key := Split(key).0, Split(key).1;
      e := BalanceSoil(env, ku, config);
      env, trace := Output(e), trace + [e];
    }

    e := ProcessStructuralIntegrity(env, config, 5);
    env, trace := Output(e), trace + [e];

    e := ProcessGravity(env, config.etd);
    env, trace := Output(e), trace + [e];

    if o.doReproduction {
      ku, key := Split(key).0, Split(key).1;
      if o.interceptReproduction {
        e := InterceptReproduceOps(env, ku, reprPrograms, config, logic, o.minReprEnergyRequirement);
        nSuccessfulRepr := Some(SuccessfulReproductions(e));
      } else if o.mutatePrograms {
        var mutation := MutationArgs(programs, o.mutator.value,
          o.enableAsexualReproduction, o.enableSexualReproduction, o.doesSexMatter,
          o.sexualMutator.value, o.returnMetrics);
        e := PerformReproduceUpdate(env, ku, reprPrograms, config, logic, Some(mutation), o.nSparseMax);
        programs := ReproducedPrograms(e);
        if o.returnMetrics {
          metrics := Some(ReproductionMetrics(e));
        }
      } else {
        e := PerformReproduceUpdate(env, ku, reprPrograms, config, logic, None, o.nSparseMax);
      }
      env, trace := Output(e), trace + [e];
    }

    ku, key := Split(key).0, Split(key).1;
    e := PerformParallelUpdate(env, ku, parPrograms, config, logic, o.nSparseMax);
    env, trace := Output(e), trace + [e];

    e := ProcessEnergy(env, config);
    env, trace := Output(e), trace + [e];

    ku, key := Split(key).0, Split(key).1;
    e := PerformExclusiveUpdate(env, ku, exclPrograms, config, exclFs, logic, o.nSparseMax);
    env, trace := Output(e), trace + [e];

    e := IncreaseAge(env, config.etd);
    env, trace := Output(e), trace + [e];

    var rval := Bare(env);
    if o.mutatePrograms {
      rval := Paired(rval, ProgramsPart(programs));
    }
    if o.interceptReproduction {
      rval := Paired(rval, CountPart(nSuccessfulRepr.value));
    }
    if o.returnMetrics {
      rval := Paired(rval, MetricsPart(metrics.value));
    }
    out := Success(rval);
  }

  // ----- Properties of a step -----

  /** A step fails exactly when reproduction has no mode, and then calls nothing. */
  lemma StepAborts(key0: Key, env0: Env, config: Config, logic: AgentLogic, programs0: Programs, o: Options)
    requires ReproductionModeSelected(o) ==> NamesBound(o)
    ensures var r := Step(key0, env0, config, logic, programs0, o);
      (r.out.Failure? <==> !ReproductionModeSelected(o))
      && (r.out.Failure? ==> r.out.error == NoReproductionMode && r.trace == [])
  {
  }

  /** The phases of the calls, in order, are the ones present, in the canonical order. */
  lemma TraceKinds(c: PhaseCalls)
    requires c.WellKinded()
    ensures Kinds(c.Trace()) ==
      (if c.soil.Some? then [SoilPhase] else []) + [IntegrityPhase, GravityPhase]
      + (if c.repro.Some? then [ReproductionPhase] else []) + [ParallelPhase, EnergyPhase, ExclusivePhase, AgingPhase]
  {
  }

  /** The calls of a step belong to their phases, each receives the previous one's environment, and a phase runs exactly when scheduled. */
  lemma StepCallsShape(key0: Key, env0: Env, config: Config, logic: AgentLogic, programs0: Programs, o: Options)
    requires NamesBound(o)
    ensures var c := StepCalls(key0, env0, config, logic, programs0, o);
      c.WellKinded() && c.Linked(env0)
      && (c.soil.Some? <==> config.soilUnbalanceLimit > 0.0)
      && (c.repro.Some? <==> o.doReproduction)
  {
  }

  /** The phases run are exactly the scheduled ones, each once, in the canonical order. */
  lemma StepPhaseOrder(key0: Key, env0: Env, config: Config, logic: AgentLogic, programs0: Programs, o: Options)
    requires ReproductionModeSelected(o) && NamesBound(o)
    ensures var ks := Kinds(Step(key0, env0, config, logic, programs0, o).trace);
      ks == PhaseOrder(config, o)
      && StrictlyOrdered(ks)
      && forall k :: k in ks <==> Scheduled(k, config, o)
  {
    StepCallsShape(key0, env0, config, logic, programs0, o);
    TraceKinds(StepCalls(key0, env0, config, logic, programs0, o));
    PhaseOrderWellFormed(config, o);
  }

  /** Calls linked one to the next form a chained trace. */
  lemma TraceChained(c: PhaseCalls, start: Env)
    requires c.Linked(start)
    ensures Chained(start, c.Trace())
  {
  }

  /** Every call receives the environment the previous call returned, and the step returns the last one's. */
  lemma StepChained(key0: Key, env0: Env, config: Config, logic: AgentLogic, programs0: Programs, o: Options)
    requires ReproductionModeSelected(o) && NamesBound(o)
    ensures var r := Step(key0, env0, config, logic, programs0, o);
      r.out.Success? && r.trace != []
      && Chained(env0, r.trace)
      && Innermost(r.out.value) == Output(r.trace[|r.trace| - 1])
  {
    StepCallsShape(key0, env0, config, logic, programs0, o);
    TraceChained(StepCalls(key0, env0, config, logic, programs0, o), env0);
  }

  /** The calls in the trace are exactly the calls of the phases present. */
  lemma TraceMembers(c: PhaseCalls)
    ensures forall e :: e in c.Trace() <==>
      (c.soil.Some? && e == c.soil.value) || e == c.integrity || e == c.gravity
      || (c.repro.Some? && e == c.repro.value)
      || e == c.parallel || e == c.energy || e == c.exclusive || e == c.aging
  {
  }

  /** Each call of a step receives what the step was given and what the flags select. */
  lemma StepCallsForwarded(key0: Key, env0: Env, config: Config, logic: AgentLogic, programs0: Programs, o: Options)
    requires ReproductionModeSelected(o) && NamesBound(o)
    ensures var c := StepCalls(key0, env0, config, logic, programs0, o);
      (c.soil.Some? ==> Forwarded(c.soil.value, config, logic, programs0, o))
      && Forwarded(c.integrity, config, logic, programs0, o) && Forwarded(c.gravity, config, logic, programs0, o)
      && (c.repro.Some? ==> Forwarded(c.repro.value, config, logic, programs0, o))
      && Forwarded(c.parallel, config, logic, programs0, o) && Forwarded(c.energy, config, logic, programs0, o)
      && Forwarded(c.exclusive, config, logic, programs0, o) && Forwarded(c.aging, config, logic, programs0, o)
  {
  }

  /** Every call receives what the step was given and what the flags select. */
  lemma StepForwards(key0: Key, env0: Env, config: Config, logic: AgentLogic, programs0: Programs, o: Options)
    requires ReproductionModeSelected(o) && NamesBound(o)
    ensures var t := Step(key0, env0, config, logic, programs0, o).trace;
      forall e :: e in t ==> Forwarded(e, config, logic, programs0, o)
  {
    TraceMembers(StepCalls(key0, env0, config, logic, programs0, o));
    StepCallsForwarded(key0, env0, config, logic, programs0, o);
  }

  /** Appending a call appends its key, if its phase takes one. */
  lemma KeysOfSnoc(t: seq<Event>, e: Event)
    ensures KeysOf(t + [e]) == KeysOf(t) + if TakesKey(e) then [e.key] else []
  {
    assert (t + [e])[..|t|] == t;
  }

  /** Integrity and gravity take no key. */
  lemma KeysOfEarly(t: seq<Event>, integrity: Event, gravity: Event)
    requires KindOf(integrity) == IntegrityPhase && KindOf(gravity) == GravityPhase
    ensures KeysOf(t + [integrity] + [gravity]) == KeysOf(t)
  {
    KeysOfSnoc(t, integrity);
    KeysOfSnoc(t + [integrity], gravity);
  }

  /** Of the four last phases, the parallel and exclusive updates take a key each. */
  lemma KeysOfLate(t: seq<Event>, parallel: Event, energy: Event, exclusive: Event, aging: Event)
    requires KindOf(parallel) == ParallelPhase && KindOf(energy) == EnergyPhase
    requires KindOf(exclusive) == ExclusivePhase && KindOf(aging) == AgingPhase
    ensures KeysOf(t + [parallel] + [energy] + [exclusive] + [aging]) == KeysOf(t) + [parallel.key, exclusive.key]
  {
    KeysOfSnoc(t, parallel);
    KeysOfSnoc(t + [parallel], energy);
    KeysOfSnoc(t + [parallel] + [energy], exclusive);
    KeysOfSnoc(t + [parallel] + [energy] + [exclusive], aging);
  }

  /** The keys the calls receive: those of the keyed phases present, in order. */
  lemma TraceKeys(c: PhaseCalls)
    requires c.WellKinded()
    ensures KeysOf(c.Trace()) ==
      (if c.soil.Some? then [c.soil.value.key] else []) + (if c.repro.Some? then [c.repro.value.key] else [])
      + [c.parallel.key, c.exclusive.key]
  {
    var t0: seq<Event> := [];
    var t1 := if c.soil.Some? then t0 + [c.soil.value] else t0;
    if c.soil.Some? {
      KeysOfSnoc(t0, c.soil.value);
    }
    var t3 := t1 + [c.integrity] + [c.gravity];
    KeysOfEarly(t1, c.integrity, c.gravity);
    var t4 := if c.repro.Some? then t3 + [c.repro.value] else t3;
    if c.repro.Some? {
      KeysOfSnoc(t3, c.repro.value);
    }
    KeysOfLate(t4, c.parallel, c.energy, c.exclusive, c.aging);
  }

  /** The keys of the keyed calls of a step, in order, are the sub-keys of one split chain from the step's key. */
  lemma StepCallKeys(key0: Key, env0: Env, config: Config, logic: AgentLogic, programs0: Programs, o: Options)
    requires NamesBound(o)
    ensures var c := StepCalls(key0, env0, config, logic, programs0, o);
      (if c.soil.Some? then [c.soil.value.key] else []) + (if c.repro.Some? then [c.repro.value.key] else [])
      + [c.parallel.key, c.exclusive.key]
      == SplitChain(key0, SplitCount(config, o)).0
  {
    var key1 := if config.soilUnbalanceLimit > 0.0 then Split(key0).1 else key0;
    var key2 := if o.doReproduction then Split(key1).1 else key1;
    SplitChainFirst(key2, 1);
    SplitChainFirst(Split(key2).1, 0);
    if o.doReproduction {
      SplitChainFirst(key1, 2);
    }
    if config.soilUnbalanceLimit > 0.0 {
      SplitChainFirst(key0, SplitCount(config, o) - 1);
    }
  }

  /**
   * The keyed calls receive, in order, the sub-keys of one split chain from
   * the step's key: pairwise independent and all descended from it.
   */
  lemma StepKeys(key0: Key, env0: Env, config: Config, logic: AgentLogic, programs0: Programs, o: Options)
    requires ReproductionModeSelected(o) && NamesBound(o)
    ensures var keys := KeysOf(Step(key0, env0, config, logic, programs0, o).trace);
      keys == SplitChain(key0, SplitCount(config, o)).0
      && (forall i, j :: 0 <= i < j < |keys| ==> Independent(keys[i], keys[j]))
      && (forall i :: 0 <= i < |keys| ==> Descends(keys[i], key0))
  {
    StepCallsShape(key0, env0, config, logic, programs0, o);
    TraceKeys(StepCalls(key0, env0, config, logic, programs0, o));
    StepCallKeys(key0, env0, config, logic, programs0, o);
    ChainIndependent(key0, SplitCount(config, o));
  }

  /**
   * The result has the nesting the flags ask for, and unpacks to the final
   * environment, the programs (reproduced only on the mutated branch), the
   * intercept counter and the metrics of the reproduction call.
   */
  lemma StepOutputs(key0: Key, env0: Env, config: Config, logic: AgentLogic, programs0: Programs, o: Options)
    requires ReproductionModeSelected(o) && NamesBound(o)
    ensures var r := Step(key0, env0, config, logic, programs0, o);
      r.out.Success? && |r.trace| > ReproductionSlot(config)
      && Shape(r.out.value) == ExpectedShape(ResultFlags(o))
      && var x := Unpack(ResultFlags(o), r.out.value);
         var repro := r.trace[ReproductionSlot(config)];
         x.env == Output(r.trace[|r.trace| - 1])
         && x.programs == (if !o.mutatePrograms then None
                           else if MutatedReproduction(o) then Some(ReproducedPrograms(repro))
                           else Some(programs0))
         && x.count == (if o.interceptReproduction then Some(SuccessfulReproductions(repro)) else None)
         && x.metrics == (if o.returnMetrics then Some(ReproductionMetrics(repro)) else None)
  {
    forall f: Flags, x: Outputs | Fits(f, x) ensures Unpack(f, Compose(f, x)) == x {
      UnpackCompose(f, x);
    }
  }

  // ----- Properties of the schedule -----

  /** The reference schedule has each phase at most once, in canonical order, and exactly the scheduled phases. */
  lemma PhaseOrderWellFormed(config: Config, o: Options)
    ensures StrictlyOrdered(PhaseOrder(config, o))
    ensures forall k :: k in PhaseOrder(config, o) <==> Scheduled(k, config, o)
  {
  }

  /** The canonical rank tells phases apart. */
  lemma RankInjective(a: PhaseKind, b: PhaseKind)
    requires Rank(a) == Rank(b)
    ensures a == b
  {
  }

  /** Dropping the first phase of an ordered schedule drops exactly that phase. */
  lemma OrderedTail(a: seq<PhaseKind>, k: PhaseKind)
    requires StrictlyOrdered(a) && a != []
    ensures StrictlyOrdered(a[1..])
    ensures k in a[1..] <==> k in a && k != a[0]
  {
    if k in a[1..] {
      var i :| 0 <= i < |a[1..]| && a[1..][i] == k;
      assert a[i + 1] == k;
    }
    if k in a && k != a[0] {
      var i :| 0 <= i < |a| && a[i] == k;
      assert a[1..][i - 1] == k;
    }
  }

  /** The first element of a non-empty sequence is one of its members. */
  lemma FirstIsMember(s: seq<PhaseKind>)
    ensures s != [] ==> s[0] in s
  {
  }

  /** Order and membership pin a schedule down: two ordered schedules with the same phases are equal. */
  lemma {:induction false} OrderDetermined(a: seq<PhaseKind>, b: seq<PhaseKind>)
    requires StrictlyOrdered(a) && StrictlyOrdered(b)
    requires forall k :: k in a <==> k in b
    ensures a == b
    decreases |a|
  {
    FirstIsMember(a);
    FirstIsMember(b);
    if a != [] {
      assert a[0] in b;
      var j :| 0 <= j < |b| && b[j] == a[0];
      assert b[0] in a;
      var i :| 0 <= i < |a| && a[i] == b[0];
      assert Rank(a[0]) <= Rank(a[i]) && Rank(b[0]) <= Rank(b[j]);
      RankInjective(a[0], b[0]);
      forall k
        ensures k in a[1..] <==> k in b[1..]
      {
        OrderedTail(a, k);
        OrderedTail(b, k);
      }
      OrderDetermined(a[1..], b[1..]);
      assert a == [a[0]] + a[1..] && b == [b[0]] + b[1..];
    }
  }

  /** The defaults pass the configuration check and bind every name the step reads. */
  lemma DefaultOptionsValid()
    ensures ReproductionModeSelected(DefaultOptions()) && NamesBound(DefaultOptions())
  {
  }
}
