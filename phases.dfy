/**
 * The collaborators `step_env` calls, kept uninterpreted.
 *
 * Every call of a physics phase or an update engine is recorded as an `Event`
 * that carries all the arguments the orchestrator passes, including the
 * environment it is given. Whatever such a call returns (the new environment,
 * the new program table, the reproduction counter, the metrics) is a distinct
 * projection of that event. Nothing is assumed about what a phase does to the
 * grid; two environments are equal only when they come from the same calls
 * with the same arguments.
 */
module Phases {
  import opened Wrappers
  import opened Keys

  /** A material type tag of the environment's type definitions (`etd.types`). */
  type MaterialType = nat

  /** The environment's type definitions (`etd`): the material tags the step names, `id` for the rest. */
  datatype TypeDefs = TypeDefs(id: nat, airType: MaterialType, earthType: MaterialType)

  /**
   * The laws of physics of the world (`EnvConfig`). Only what the orchestrator
   * itself reads is exposed; `id` stands for everything else, which it just forwards.
   */
  datatype Config = Config(id: nat, soilUnbalanceLimit: real, etd: TypeDefs)

  /** Opaque collaborator objects: the agents' architecture and the two mutators. */
  datatype AgentLogic = AgentLogic(id: nat)
  datatype Mutator = Mutator(id: nat)
  datatype SexualMutator = SexualMutator(id: nat)

  /** The exclusive logic of a material without an agent. */
  datatype CellOp = AirCellOp | EarthCellOp | CustomCellOp(id: nat)
  type ExclTable = seq<(MaterialType, CellOp)>

  /** The three functional roles of an agent's parameters. */
  datatype Role = ParallelRole | ExclusiveRole | ReproduceRole

  /** A program table: one supplied by the caller, or one produced by a mutating reproduction. */
  datatype Programs = Programs(id: nat) | ReproducedPrograms(of: Event)

  /** The agents' parameters: the stored rows, or their decoding by the mutator's `split_params`. */
  datatype AgentParams = Stored(programs: Programs) | Decoded(mutator: Mutator, programs: Programs)

  /** One of the slices `agent_logic.split_params_f` cuts out of the agents' parameters. */
  datatype RoleParams = Slice(role: Role, logic: AgentLogic, source: AgentParams)

  /** The extra arguments of a reproduction that mutates programs. */
  datatype MutationArgs = MutationArgs(
    programs: Programs, mutator: Mutator,
    enableAsexual: bool, enableSexual: bool, doesSexMatter: bool,
    sexualMutator: SexualMutator, returnMetrics: bool)

  /** One call of a collaborator, with the arguments it received. */
  datatype Event =
    | BalanceSoil(input: Env, key: Key, config: Config)
    | ProcessStructuralIntegrity(input: Env, config: Config, passes: nat)
    | ProcessGravity(input: Env, etd: TypeDefs)
    | InterceptReproduceOps(input: Env, key: Key, params: RoleParams, config: Config,
                            logic: AgentLogic, minReprEnergy: Option<real>)
    | PerformReproduceUpdate(input: Env, key: Key, params: RoleParams, config: Config,
                             logic: AgentLogic, mutation: Option<MutationArgs>, nSparseMax: Option<int>)
    | PerformParallelUpdate(input: Env, key: Key, params: RoleParams, config: Config,
                            logic: AgentLogic, nSparseMax: Option<int>)
    | ProcessEnergy(input: Env, config: Config)
    | PerformExclusiveUpdate(input: Env, key: Key, params: RoleParams, config: Config,
                             table: ExclTable, logic: AgentLogic, nSparseMax: Option<int>)
    | IncreaseAge(input: Env, etd: TypeDefs)

  /** An environment: the caller's, or the one a collaborator call returned. */
  datatype Env = Given(id: nat) | Output(of: Event)

  /** The counter of successful intercepted reproductions, and the reproduction metrics. */
  datatype Count = SuccessfulReproductions(of: Event)
  datatype Metrics = ReproductionMetrics(of: Event)

  /** `agent_logic.split_params_f`: the parallel, exclusive and reproduce slices, in that order. */
  function SplitParams(logic: AgentLogic, params: AgentParams): (RoleParams, RoleParams, RoleParams) {
    (Slice(ParallelRole, logic, params), Slice(ExclusiveRole, logic, params), Slice(ReproduceRole, logic, params))
  }

  /** The phases of a step, in their canonical order. */
  datatype PhaseKind =
    | SoilPhase | IntegrityPhase | GravityPhase | ReproductionPhase
    | ParallelPhase | EnergyPhase | ExclusivePhase | AgingPhase

  function KindOf(e: Event): PhaseKind {
    match e
    case BalanceSoil(_, _, _) => SoilPhase
    case ProcessStructuralIntegrity(_, _, _) => IntegrityPhase
    case ProcessGravity(_, _) => GravityPhase
    case InterceptReproduceOps(_, _, _, _, _, _) => ReproductionPhase
    case PerformReproduceUpdate(_, _, _, _, _, _, _) => ReproductionPhase
    case PerformParallelUpdate(_, _, _, _, _, _) => ParallelPhase
    case ProcessEnergy(_, _) => EnergyPhase
    case PerformExclusiveUpdate(_, _, _, _, _, _, _) => ExclusivePhase
    case IncreaseAge(_, _) => AgingPhase
  }

  /** The phases that consume randomness. */
  predicate KeyedPhase(k: PhaseKind) {
    k == SoilPhase || k == ReproductionPhase || k == ParallelPhase || k == ExclusivePhase
  }

  /** The calls that receive a key: exactly those of the keyed phases. */
  predicate TakesKey(e: Event)
    ensures TakesKey(e) <==> KeyedPhase(KindOf(e))
  {
    e.BalanceSoil? || e.InterceptReproduceOps? || e.PerformReproduceUpdate?
    || e.PerformParallelUpdate? || e.PerformExclusiveUpdate?
  }
}
