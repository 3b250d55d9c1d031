/** The data model of the statevector simulator: operations, measurement
    processes, shots, circuits, and the collaborators the simulation driver
    calls but whose numerics are not part of this model. */
module Circuits {
  import opened Common

  /** A classical mid-circuit measurement outcome. */
  type Bit = b: nat | b <= 1

  /** The state of the random number generator; every random draw consumes one
      generator state and yields the next. */
  type Rng = nat

  datatype Complex = Complex(re: real, im: real)

  const Zero: Complex := Complex(0.0, 0.0)

  /** A state vector, flattened in row-major order (batch axis first). */
  type State = seq<Complex>

  /** A measurement value: the mid-circuit measurements it refers to, by hash. */
  datatype MeasurementValue = MeasurementValue(measurements: seq<Hash>)

  /** The hash of the first referenced measurement, the only one the simulator reads. */
  function FirstHash(mv: MeasurementValue): (r: Result<Hash>)
    ensures r.Success? <==> |mv.measurements| > 0
    ensures r.Failure? ==> r.error == IndexError
    ensures r.Success? ==> r.value == mv.measurements[0]
  {
    if |mv.measurements| == 0 then Failure(IndexError) else Success(mv.measurements[0])
  }

  datatype Operation =
    | Gate(name: string, wires: set<Wire>, batchSize: Option<nat>)
    | StatePrep(wires: set<Wire>, batchSize: Option<nat>)
    | MidMeasure(hash: Hash, wire: Wire)
    | Projector(wires: set<Wire>, batchSize: Option<nat>)
    | Conditional(mv: MeasurementValue, thenOp: Operation)

  /** `op.batch_size`: a conditional operation reports that of the wrapped operation. */
  function BatchSize(op: Operation): Option<nat>
  {
    match op
    case Gate(_, _, b) => b
    case StatePrep(_, b) => b
    case MidMeasure(_, _) => None
    case Projector(_, b) => b
    case Conditional(_, t) => BatchSize(t)
  }

  /** `op.wires`: a conditional operation acts on the wires of the wrapped operation. */
  function OperationWires(op: Operation): set<Wire>
  {
    match op
    case Gate(_, w, _) => w
    case StatePrep(w, _) => w
    case MidMeasure(_, w) => {w}
    case Projector(w, _) => w
    case Conditional(_, t) => OperationWires(t)
  }

  datatype Kind =
    | Expectation
    | Probability
    | Sample
    | Counts
    | Variance
    | OtherKind(className: string)

  /** The Python class name of a measurement process kind. */
  function KindName(k: Kind): string
  {
    match k
    case Expectation => "ExpectationMP"
    case Probability => "ProbabilityMP"
    case Sample => "SampleMP"
    case Counts => "CountsMP"
    case Variance => "VarianceMP"
    case OtherKind(n) => n
  }

  /** A measurement process: its kind, the wires it reads, and, when it measures a
      mid-circuit measurement value, that value (`mp.mv`). */
  datatype MeasurementProcess = MeasurementProcess(kind: Kind, wires: set<Wire>, mv: Option<MeasurementValue>)

  /** Shots: none (analytic), or the list of shot counts, one per partition of the
      shot vector with copies expanded. */
  datatype Shots = Analytic | Finite(partitions: seq<nat>)

  function SumOf(s: seq<nat>): nat
  {
    if s == [] then 0 else SumOf(s[..|s| - 1]) + s[|s| - 1]
  }

  /** `shots.total_shots` of finite shots. */
  function TotalShots(s: Shots): nat
    requires s.Finite?
  {
    SumOf(s.partitions)
  }

  /** `shots.has_partitioned_shots`. */
  predicate Partitioned(s: Shots)
  {
    s.Finite? && |s.partitions| > 1
  }

  /** What the shots class guarantees of any shots value a circuit is built with:
      at least one partition, and every partition a positive count. */
  predicate ValidShots(s: Shots)
  {
    s.Finite? ==> |s.partitions| > 0 && forall i :: 0 <= i < |s.partitions| ==> s.partitions[i] > 0
  }

  datatype Circuit = Circuit(ops: seq<Operation>, measurements: seq<MeasurementProcess>, shots: Shots)

  /** `circuit.op_wires`: the wires of the operations. */
  function CircuitOpWires(c: Circuit): set<Wire>
  {
    set i, w | 0 <= i < |c.ops| && w in OperationWires(c.ops[i]) :: w
  }

  /** `circuit.wires`: the wires of the operations and of the measurements. */
  function CircuitWires(c: Circuit): (r: set<Wire>)
    ensures CircuitOpWires(c) <= r
  {
    CircuitOpWires(c) + set i, w | 0 <= i < |c.measurements| && w in c.measurements[i].wires :: w
  }

  /** The collaborators of the simulation driver, whose numerics are outside the model:
      `create_initial_state`, `apply_operation` (for a mid-circuit measurement it also
      draws the outcome), the division of a postselected state by its norm, the
      binomial draw of surviving shots, `measure` and `measure_with_samples`. */
  datatype Device = Device(
    initialState: (set<Wire>, Option<Operation>) -> State,
    apply: (Operation, State, bool) -> State,
    applyMid: (Operation, State, bool, Rng) -> (State, Bit, Rng),
    renormalize: State -> State,
    binomial: (nat, State, Rng) -> (nat, Rng),
    measure: (MeasurementProcess, State, bool) -> real,
    sample: (seq<MeasurementProcess>, State, seq<nat>, bool, Rng) -> (seq<seq<real>>, Rng)
  )

  /** The binomial draw of surviving shots never exceeds the number of trials. */
  ghost predicate BinomialBounded(dev: Device)
  {
    forall s, st, g :: dev.binomial(s, st, g).0 <= s
  }

  /** `measure_with_samples` gives one row per shot partition and, in each row,
      one result per measurement process. */
  ghost predicate SamplerShaped(dev: Device)
  {
    forall ms, st, parts, b, g ::
      var table := dev.sample(ms, st, parts, b, g).0;
      |table| == |parts| && forall p :: 0 <= p < |table| ==> |table[p]| == |ms|
  }
}
