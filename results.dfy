/**
 * The value `step_env` returns: the environment, paired in turn with the
 * program table, the intercepted-reproduction counter and the metrics, each
 * only when the corresponding flag asks for it, always in that nesting order.
 * `Outputs` is the same information as one record with optional fields.
 */
module Results {
  import opened Wrappers
  import opened Phases

  /** A part that can be paired onto the result. */
  datatype Part = ProgramsPart(programs: Programs) | CountPart(count: Count) | MetricsPart(metrics: Metrics)
  datatype PartTag = ProgramsTag | CountTag | MetricsTag

  /** `env`, or the pair `(first, second)` of an earlier result and a part. */
  datatype StepResult = Bare(env: Env) | Paired(first: StepResult, second: Part)

  /** The three flags that decide the result's shape. */
  datatype Flags = Flags(withPrograms: bool, withCount: bool, withMetrics: bool)

  /** The result's contents by name. */
  datatype Outputs = Outputs(env: Env, programs: Option<Programs>, count: Option<Count>, metrics: Option<Metrics>)

  function Tag(p: Part): PartTag {
    match p
    case ProgramsPart(_) => ProgramsTag
    case CountPart(_) => CountTag
    case MetricsPart(_) => MetricsTag
  }

  /** The parts of a result, innermost first. */
  function Shape(r: StepResult): seq<PartTag> {
    match r
    case Bare(_) => []
    case Paired(first, second) => Shape(first) + [Tag(second)]
  }

  /** The environment at the core of a result. */
  function Innermost(r: StepResult): Env {
    match r
    case Bare(env) => env
    case Paired(first, _) => Innermost(first)
  }

  /** The shape the flags call for: programs, then counter, then metrics, each only if asked for. */
  function ExpectedShape(f: Flags): seq<PartTag> {
    (if f.withPrograms then [ProgramsTag] else [])
    + (if f.withCount then [CountTag] else [])
    + (if f.withMetrics then [MetricsTag] else [])
  }

  /** The record holds exactly the optional parts the flags ask for. */
  predicate Fits(f: Flags, x: Outputs) {
    (x.programs.Some? <==> f.withPrograms)
    && (x.count.Some? <==> f.withCount)
    && (x.metrics.Some? <==> f.withMetrics)
  }

  /** Nest the requested parts around the environment, in the fixed order. */
  function Compose(f: Flags, x: Outputs): (r: StepResult)
    requires Fits(f, x)
    ensures Shape(r) == ExpectedShape(f)
    ensures Innermost(r) == x.env
  {
    var r0 := Bare(x.env);
    var r1 := if f.withPrograms then Paired(r0, ProgramsPart(x.programs.value)) else r0;
    var r2 := if f.withCount then Paired(r1, CountPart(x.count.value)) else r1;
    var s1 := if f.withPrograms then [ProgramsTag] else [];
    var s2 := s1 + if f.withCount then [CountTag] else [];
    assert Shape(r1) == s1 && Innermost(r1) == x.env;
    assert Shape(r2) == s2 && Innermost(r2) == x.env;
    if f.withMetrics then Paired(r2, MetricsPart(x.metrics.value)) else r2
  }

  /** A result whose last part has the given tag, when its shape ends with that tag. */
  lemma LastPart(r: StepResult, s: seq<PartTag>, t: PartTag)
    requires Shape(r) == s + [t]
    ensures r.Paired? && Tag(r.second) == t && Shape(r.first) == s
  {
    assert |Shape(r)| > 0;
    var shape := Shape(r);
    assert shape[|s|] == t && shape[..|s|] == s;
    assert shape[|s|] == Tag(r.second) && shape[..|s|] == Shape(r.first);
  }

  /** Destructure a result the way a caller who knows the flags does. */
  function Unpack(f: Flags, r: StepResult): (x: Outputs)
    requires Shape(r) == ExpectedShape(f)
    ensures Fits(f, x)
    ensures x.env == Innermost(r)
  {
    var s1 := if f.withPrograms then [ProgramsTag] else [];
    var s2 := s1 + if f.withCount then [CountTag] else [];
    var r2 :=
      if f.withMetrics then LastPart(r, s2, MetricsTag); r.first else r;
    var r1 :=
      if f.withCount then LastPart(r2, s1, CountTag); r2.first else r2;
    var r0 :=
      if f.withPrograms then LastPart(r1, [], ProgramsTag); r1.first else r1;
    assert Shape(r0) == [] && r0.Bare?;
    assert Innermost(r1) == Innermost(r0) && Innermost(r2) == Innermost(r1) && Innermost(r) == Innermost(r2);
    Outputs(
      r0.env,
      if f.withPrograms then Some(r1.second.programs) else None,
      if f.withCount then Some(r2.second.count) else None,
      if f.withMetrics then Some(r.second.metrics) else None)
  }

  /** Destructuring a composed result gives back what was composed. */
  lemma UnpackCompose(f: Flags, x: Outputs)
    requires Fits(f, x)
    ensures Unpack(f, Compose(f, x)) == x
  {
  }

  /** Composing what was destructured rebuilds the result. */
  lemma ComposeUnpack(f: Flags, r: StepResult)
    requires Shape(r) == ExpectedShape(f)
    ensures Compose(f, Unpack(f, r)) == r
  {
    var s1 := if f.withPrograms then [ProgramsTag] else [];
    var s2 := s1 + if f.withCount then [CountTag] else [];
    var r2 := r;
    if f.withMetrics {
      LastPart(r, s2, MetricsTag);
      r2 := r.first;
    }
    var r1 := r2;
    if f.withCount {
      LastPart(r2, s1, CountTag);
      r1 := r2.first;
    }
    if f.withPrograms {
      LastPart(r1, [], ProgramsTag);
    }
  }
}
