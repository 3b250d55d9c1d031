/** The state evolution driver (`get_final_state`) and the postselection step
    (`_postselection_postprocess`) of the statevector simulator. */
module Evolution {
  import opened Common
  import opened Circuits

  const BroadcastPostselectMessage: string :=
    "Cannot postselect on circuits with broadcasting. Use the qml.transforms.broadcast_expand "
    + "transform to split a broadcasted tape into multiple non-broadcasted tapes before "
    + "executing if postselection is used."

  /** The shot counts kept after postselection: one binomial draw per partition,
      left to right, each consuming the generator state the previous one left. */
  function Redraw(dev: Device, parts: seq<nat>, st: State, g: Rng): (r: (seq<nat>, Rng))
    ensures |r.0| == |parts|
    ensures BinomialBounded(dev) ==> forall i :: 0 <= i < |parts| ==> r.0[i] <= parts[i]
    decreases |parts|
  {
    if parts == [] then ([], g)
    else
      var (k, g1) := dev.binomial(parts[0], st, g);
      var (rest, g2) := Redraw(dev, parts[1..], st, g1);
      ([k] + rest, g2)
  }

  /** `_postselection_postprocess`: refuses a batched state before anything else,
      divides the state by its norm, and with shots re-draws every partition's count. */
  function Postselect(dev: Device, state: State, batched: bool, shots: Shots, g: Rng): (r: Result<(State, Shots, Rng)>)
    ensures r.Failure? <==> batched
    ensures r.Failure? ==> r.error == ValueError(BroadcastPostselectMessage)
    ensures r.Success? ==> r.value.0 == dev.renormalize(state)
    ensures r.Success? ==> (r.value.1.Finite? <==> shots.Finite?)
    ensures r.Success? && shots.Analytic? ==> r.value.2 == g
    ensures r.Success? && shots.Finite? ==> |r.value.1.partitions| == |shots.partitions|
    ensures r.Success? && shots.Finite? && BinomialBounded(dev) ==>
      forall i :: 0 <= i < |shots.partitions| ==> r.value.1.partitions[i] <= shots.partitions[i]
  {
    if batched then Failure(ValueError(BroadcastPostselectMessage))
    else if shots.Finite? then
      var (parts, g1) := Redraw(dev, shots.partitions, state, g);
      Success((dev.renormalize(state), Finite(parts), g1))
    else Success((dev.renormalize(state), shots, g))
  }

  /** What the loop of `get_final_state` threads from one operation to the next:
      the state, whether it is batched, the recorded mid-circuit measurement
      outcomes, the circuit's shots (which postselection replaces) and the generator. */
  datatype Config = Config(state: State, batched: bool, values: map<Hash, Bit>, shots: Shots, rng: Rng)

  /** The operation a step applies: the operation itself; for a conditional, the
      wrapped operation when the first referenced measurement recorded a nonzero
      outcome, and nothing when it recorded zero. */
  /** The message of the KeyError raised for an unrecorded measurement. */
  function MissingKeyMessage(id: Hash): string
  {
    "Measurement key " + IntToString(id) + " not found."
  }

  function Guard(values: map<Hash, Bit>, op: Operation): Result<Option<Operation>>
  {
    if !op.Conditional? then Success(Some(op))
    else match FirstHash(op.mv)
      case Failure(e) => Failure(e)
      case Success(id) =>
        if id !in values then Failure(KeyErrorMessage(MissingKeyMessage(id)))
        else if values[id] == 0 then Success(None)
        else Success(Some(op.thenOp))
  }

  /** Applying one (unwrapped) operation: a mid-circuit measurement records its
      outcome under its hash, a projector triggers postselection, and the state
      becomes batched when the operation has a batch size. */
  function Apply(dev: Device, c: Config, op: Operation): Result<Config>
  {
    var (state, values, g) :=
      if op.MidMeasure? then
        var (s, b, g1) := dev.applyMid(op, c.state, c.batched, c.rng);
        (s, c.values[op.hash := b], g1)
      else (dev.apply(op, c.state, c.batched), c.values, c.rng);
    var batched := c.batched || BatchSize(op).Some?;
    if op.Projector? then
      match Postselect(dev, state, c.batched, c.shots, g)
      case Failure(e) => Failure(e)
      case Success(p) => Success(Config(p.0, batched, values, p.1, p.2))
    else Success(Config(state, batched, values, c.shots, g))
  }

  /** One iteration of the operation loop of `get_final_state`. */
  function Step(dev: Device, c: Config, op: Operation): Result<Config>
  {
    match Guard(c.values, op)
    case Failure(e) => Failure(e)
    case Success(None) => Success(c)
    case Success(Some(o)) => Apply(dev, c, o)
  }

  /** The operation loop over `ops`, stopping at the first exception. */
  function Run(dev: Device, c: Config, ops: seq<Operation>): Result<Config>
    decreases |ops|
  {
    if ops == [] then Success(c)
    else match Run(dev, c, ops[..|ops| - 1])
      case Failure(e) => Failure(e)
      case Success(c1) => Step(dev, c1, ops[|ops| - 1])
  }

  /** The operations a step applies (none when skipped or failing). */
  function StepApplied(c: Config, op: Operation): seq<Operation>
  {
    match Guard(c.values, op)
    case Success(Some(o)) => [o]
    case _ => []
  }

  /** The operations the loop actually applied, conditionals unwrapped, in order. */
  function Applied(dev: Device, c: Config, ops: seq<Operation>): seq<Operation>
    decreases |ops|
  {
    if ops == [] then []
    else match Run(dev, c, ops[..|ops| - 1])
      case Failure(_) => []
      case Success(c1) => Applied(dev, c, ops[..|ops| - 1]) + StepApplied(c1, ops[|ops| - 1])
  }

  /** The hashes of the mid-circuit measurements among `ops`. */
  function MidHashes(ops: seq<Operation>): set<Hash>
    decreases |ops|
  {
    if ops == [] then {}
    else MidHashes(ops[..|ops| - 1]) + (if ops[|ops| - 1].MidMeasure? then {ops[|ops| - 1].hash} else {})
  }

  predicate AnyBatched(ops: seq<Operation>)
  {
    exists i :: 0 <= i < |ops| && BatchSize(ops[i]).Some?
  }

  /** Running `a + b` is running `a`, then `b` from where `a` stopped. */
  lemma {:induction false} RunAppend(dev: Device, c: Config, a: seq<Operation>, b: seq<Operation>)
    ensures Run(dev, c, a + b) ==
      match Run(dev, c, a)
      case Failure(e) => Failure(e)
      case Success(c1) => Run(dev, c1, b)
    decreases |b|
  {
    if b == [] {
      assert a + b == a;
    } else {
      var b1 := b[..|b| - 1];
      assert (a + b)[..|a + b| - 1] == a + b1;
      assert (a + b)[|a + b| - 1] == b[|b| - 1];
      RunAppend(dev, c, a, b1);
    }
  }

  /** Extending the loop by the operation at index `i`. */
  lemma RunSnoc(dev: Device, c: Config, ops: seq<Operation>, i: nat)
    requires i < |ops|
    ensures Run(dev, c, ops[..i + 1]) ==
      match Run(dev, c, ops[..i])
      case Failure(e) => Failure(e)
      case Success(c1) => Step(dev, c1, ops[i])
  {
    assert ops[..i + 1][..i] == ops[..i];
  }

  /** Once the loop raises at index `i`, the whole loop raises the same exception. */
  lemma RunStopsAt(dev: Device, c: Config, ops: seq<Operation>, i: nat)
    requires i < |ops| && Run(dev, c, ops[..i + 1]).Failure?
    ensures Run(dev, c, ops) == Run(dev, c, ops[..i + 1])
  {
    RunAppend(dev, c, ops[..i + 1], ops[i + 1..]);
    assert ops[..i + 1] + ops[i + 1..] == ops;
  }

  /** A conditional whose first referenced measurement has no recorded outcome
      raises KeyError with a message naming it, and nothing after it runs. */
  lemma MissingKeyStops(dev: Device, c: Config, pre: seq<Operation>, op: Operation, post: seq<Operation>)
    requires Run(dev, c, pre).Success?
    requires op.Conditional? && |op.mv.measurements| > 0
    requires op.mv.measurements[0] !in Run(dev, c, pre).value.values
    ensures Run(dev, c, pre + [op] + post) == Failure(KeyErrorMessage(MissingKeyMessage(op.mv.measurements[0])))
  {
    RunAppend(dev, c, pre, [op]);
    assert Run(dev, c, pre + [op]) == Failure(KeyErrorMessage(MissingKeyMessage(op.mv.measurements[0]))) by {
      var c1 := Run(dev, c, pre).value;
      assert Run(dev, c1, [op]) == Step(dev, c1, op) by {
        assert [op][..0] == [];
      }
    }
    RunAppend(dev, c, pre + [op], post);
  }

  /** A conditional whose first referenced measurement recorded a zero outcome is
      skipped: state, batch flag, outcomes, shots and generator are unchanged. */
  lemma FalsySkips(dev: Device, c: Config, pre: seq<Operation>, op: Operation)
    requires Run(dev, c, pre).Success?
    requires op.Conditional? && |op.mv.measurements| > 0
    requires op.mv.measurements[0] in Run(dev, c, pre).value.values
    requires Run(dev, c, pre).value.values[op.mv.measurements[0]] == 0
    ensures Run(dev, c, pre + [op]) == Run(dev, c, pre)
    ensures StepApplied(Run(dev, c, pre).value, op) == []
  {
    var c1 := Run(dev, c, pre).value;
    RunAppend(dev, c, pre, [op]);
    assert [op][..0] == [];
  }

  /** A step's effect on the recorded outcomes: an applied mid-circuit measurement
      records its outcome under its hash; nothing else adds or changes an entry. */
  lemma StepValues(dev: Device, c: Config, op: Operation)
    requires Step(dev, c, op).Success?
    ensures Step(dev, c, op).value.values.Keys == c.values.Keys + MidHashes(StepApplied(c, op))
    ensures forall h :: h in c.values && h !in MidHashes(StepApplied(c, op)) ==>
      Step(dev, c, op).value.values[h] == c.values[h]
    ensures forall o :: StepApplied(c, op) == [o] && o.MidMeasure? ==>
      Step(dev, c, op).value.values[o.hash] == dev.applyMid(o, c.state, c.batched, c.rng).1
  {
    var s := StepApplied(c, op);
    if s != [] {
      assert s[..0] == [];
    }
  }

  /** The recorded outcomes after the loop: exactly the hashes of the applied
      mid-circuit measurements are added, and earlier entries change only when
      a measurement with the same hash is applied again. */
  lemma {:induction false} RunValues(dev: Device, c: Config, ops: seq<Operation>)
    requires Run(dev, c, ops).Success?
    ensures Run(dev, c, ops).value.values.Keys == c.values.Keys + MidHashes(Applied(dev, c, ops))
    ensures forall h :: h in c.values && h !in MidHashes(Applied(dev, c, ops)) ==>
      Run(dev, c, ops).value.values[h] == c.values[h]
    decreases |ops|
  {
    if ops != [] {
      var pre := ops[..|ops| - 1];
      var c1 := Run(dev, c, pre).value;
      RunValues(dev, c, pre);
      StepValues(dev, c1, ops[|ops| - 1]);
      MidHashesAppend(Applied(dev, c, pre), StepApplied(c1, ops[|ops| - 1]));
    }
  }

  lemma {:induction false} MidHashesAppend(a: seq<Operation>, b: seq<Operation>)
    ensures MidHashes(a + b) == MidHashes(a) + MidHashes(b)
    decreases |b|
  {
    if b == [] {
      assert a + b == a;
    } else {
      assert (a + b)[..|a + b| - 1] == a + b[..|b| - 1];
      MidHashesAppend(a, b[..|b| - 1]);
    }
  }

  /** The batch flag after the loop is its initial value OR'd with "some applied
      operation has a batch size"; in particular it never goes from true to false. */
  lemma {:induction false} RunBatched(dev: Device, c: Config, ops: seq<Operation>)
    requires Run(dev, c, ops).Success?
    ensures Run(dev, c, ops).value.batched == (c.batched || AnyBatched(Applied(dev, c, ops)))
    decreases |ops|
  {
    if ops != [] {
      var pre := ops[..|ops| - 1];
      var c1 := Run(dev, c, pre).value;
      var a := Applied(dev, c, pre);
      var s := StepApplied(c1, ops[|ops| - 1]);
      RunBatched(dev, c, pre);
      assert Applied(dev, c, ops) == a + s;
      if AnyBatched(a) {
        var i :| 0 <= i < |a| && BatchSize(a[i]).Some?;
        assert (a + s)[i] == a[i];
      }
      if s != [] && BatchSize(s[0]).Some? {
        assert (a + s)[|a|] == s[0];
      }
      if AnyBatched(a + s) {
        var i :| 0 <= i < |a + s| && BatchSize((a + s)[i]).Some?;
        if i >= |a| {
          assert s != [] && (a + s)[i] == s[0];
        }
      }
    }
  }

  /** Postselection keeps the kind of the shots and the number of partitions, and
      with a bounded binomial draw never increases a partition's count. */
  lemma {:induction false} RunShots(dev: Device, c: Config, ops: seq<Operation>)
    requires Run(dev, c, ops).Success?
    ensures Run(dev, c, ops).value.shots.Finite? <==> c.shots.Finite?
    ensures c.shots.Finite? ==> |Run(dev, c, ops).value.shots.partitions| == |c.shots.partitions|
    ensures c.shots.Finite? && BinomialBounded(dev) ==> forall i :: 0 <= i < |c.shots.partitions| ==>
      Run(dev, c, ops).value.shots.partitions[i] <= c.shots.partitions[i]
    decreases |ops|
  {
    if ops != [] {
      RunShots(dev, c, ops[..|ops| - 1]);
    }
  }

  /** `qml.math.stack([s, zeros_like(s)], axis=-1)` on the flattened state: every
      amplitude is followed by a zero. */
  function Interleave(s: State): (r: State)
    ensures |r| == 2 * |s|
  {
    if s == [] then [] else [s[0], Zero] + Interleave(s[1..])
  }

  /** One padding step keeps the old amplitudes at the even positions and puts
      zeros at the odd ones. */
  lemma {:induction false} InterleaveLayout(s: State)
    ensures forall k :: 0 <= k < |s| ==> Interleave(s)[2 * k] == s[k] && Interleave(s)[2 * k + 1] == Zero
  {
    if s != [] {
      InterleaveLayout(s[1..]);
      forall k | 1 <= k < |s|
        ensures Interleave(s)[2 * k] == s[k] && Interleave(s)[2 * k + 1] == Zero
      {
        assert s[1..][k - 1] == s[k];
      }
    }
  }

  function Pow2(n: nat): (r: nat)
    ensures r >= 1
  {
    if n == 0 then 1 else 2 * Pow2(n - 1)
  }

  /** The state after `n` padding steps. */
  function PadTimes(s: State, n: nat): State
  {
    if n == 0 then s else Interleave(PadTimes(s, n - 1))
  }

  lemma MulLess(k: nat, m: nat, q: nat)
    requires k < m && q >= 1
    ensures k * q < m * q
  {
  }

  lemma MulTwice(k: nat, q: nat)
    ensures k * (2 * q) == 2 * (k * q)
  {
  }

  lemma InterleaveAt(p: State, x: nat)
    requires x < |p|
    ensures Interleave(p)[2 * x] == p[x]
  {
    InterleaveLayout(p);
  }

  /** Padding `n` times multiplies the length by 2^n. */
  lemma {:induction false} PadTimesLength(s: State, n: nat)
    ensures |PadTimes(s, n)| == |s| * Pow2(n)
  {
    if n > 0 {
      PadTimesLength(s, n - 1);
      MulTwice(|s|, Pow2(n - 1));
    }
  }

  /** After `n` padding steps amplitude `s[k]` sits at position `k * 2^n`. */
  lemma {:induction false} PadTimesAt(s: State, n: nat, k: nat)
    requires k < |s|
    ensures k * Pow2(n) < |PadTimes(s, n)| && PadTimes(s, n)[k * Pow2(n)] == s[k]
  {
    if n > 0 {
      PadTimesAt(s, n - 1, k);
      PadTimesLength(s, n - 1);
      PadStepAt(PadTimes(s, n - 1), |s|, Pow2(n - 1), k);
    }
  }

  /** Padding `n` times multiplies the length by 2^n, and each amplitude `s[k]` ends
      at position `k * 2^n`. */
  lemma PadTimesLayout(s: State, n: nat)
    ensures |PadTimes(s, n)| == |s| * Pow2(n)
    ensures forall k :: 0 <= k < |s| ==> k * Pow2(n) < |PadTimes(s, n)| && PadTimes(s, n)[k * Pow2(n)] == s[k]
  {
    PadTimesLength(s, n);
    forall k | 0 <= k < |s|
      ensures k * Pow2(n) < |PadTimes(s, n)| && PadTimes(s, n)[k * Pow2(n)] == s[k]
    {
      PadTimesAt(s, n, k);
    }
  }

  /** Position `k * q` of a state of length `len * q` moves to `k * (2 * q)` when
      the state is padded once more. */
  lemma PadStepAt(p: State, len: nat, q: nat, k: nat)
    requires |p| == len * q && k < len && q >= 1
    ensures k * q < |p| && k * (2 * q) < |Interleave(p)| && Interleave(p)[k * (2 * q)] == p[k * q]
  {
    MulLess(k, len, q);
    MulTwice(k, q);
    InterleaveAt(p, k * q);
  }

  lemma SubsetCard(a: set<Wire>, b: set<Wire>)
    requires a <= b
    ensures |a| <= |b|
  {
    assert b == a + (b - a);
  }

  /** The number of padding steps: one per declared wire no operation touches. */
  function PadCount(circuit: Circuit): nat
  {
    SubsetCard(CircuitOpWires(circuit), CircuitWires(circuit));
    |CircuitWires(circuit)| - |CircuitOpWires(circuit)|
  }

  /** The leading state preparation, if the circuit starts with one. */
  function Prep(circuit: Circuit): Option<Operation>
  {
    if |circuit.ops| > 0 && circuit.ops[0].StatePrep? then Some(circuit.ops[0]) else None
  }

  /** The configuration before the loop: the initial state over the operation wires,
      batched only when the state preparation is, and no recorded outcomes. */
  function InitialConfig(dev: Device, circuit: Circuit, g: Rng): Config
  {
    var prep := Prep(circuit);
    Config(dev.initialState(CircuitOpWires(circuit), prep),
           prep.Some? && BatchSize(prep.value).Some?, map[], circuit.shots, g)
  }

  /** The operations the loop runs over: all but a leading state preparation. */
  function LoopOps(circuit: Circuit): seq<Operation>
  {
    if Prep(circuit).Some? then circuit.ops[1..] else circuit.ops
  }

  /** What `get_final_state` returns: the padded state, the batch flag and the
      recorded outcomes; together with the circuit's shots as postselection left
      them and the generator state after the last draw. */
  datatype Final = Final(state: State, batched: bool, values: map<Hash, Bit>, shots: Shots, rng: Rng)

  function FinalStateOf(dev: Device, circuit: Circuit, g: Rng): Result<Final>
  {
    match Run(dev, InitialConfig(dev, circuit, g), LoopOps(circuit))
    case Failure(e) => Failure(e)
    case Success(c) => Success(Final(PadTimes(c.state, PadCount(circuit)), c.batched, c.values, c.shots, c.rng))
  }

  /** The outcome of `get_final_state` in terms of the loop: the outcomes recorded
      are exactly those of the applied mid-circuit measurements, the batch flag
      is "the preparation is batched" OR'd with "an applied operation is batched",
      and the loop's state is padded once per untouched declared wire, each of its
      amplitudes landing at `k * 2^pads`. */
  lemma FinalStateProperties(dev: Device, circuit: Circuit, g: Rng)
    requires FinalStateOf(dev, circuit, g).Success?
    ensures var c0 := InitialConfig(dev, circuit, g);
            var f := FinalStateOf(dev, circuit, g);
            var applied := Applied(dev, c0, LoopOps(circuit));
            && f.value.values.Keys == MidHashes(applied)
            && f.value.batched == (c0.batched || AnyBatched(applied))
            && |f.value.state| == |Run(dev, c0, LoopOps(circuit)).value.state| * Pow2(PadCount(circuit))
            && (f.value.shots.Finite? <==> circuit.shots.Finite?)
            && (circuit.shots.Finite? ==> |f.value.shots.partitions| == |circuit.shots.partitions|)
    ensures var s := Run(dev, InitialConfig(dev, circuit, g), LoopOps(circuit)).value.state;
            forall k :: 0 <= k < |s| ==>
              && k * Pow2(PadCount(circuit)) < |FinalStateOf(dev, circuit, g).value.state|
              && FinalStateOf(dev, circuit, g).value.state[k * Pow2(PadCount(circuit))] == s[k]
  {
    var c0 := InitialConfig(dev, circuit, g);
    RunValues(dev, c0, LoopOps(circuit));
    RunBatched(dev, c0, LoopOps(circuit));
    RunShots(dev, c0, LoopOps(circuit));
    PadTimesLayout(Run(dev, c0, LoopOps(circuit)).value.state, PadCount(circuit));
  }

  /** The body of the operation loop once the conditional is resolved: apply the
      operation, record a mid-circuit outcome, postselect on a projector, and update
      the batch flag. */
  method ApplyOperation(dev: Device, state: State, batched: bool, values: map<Hash, Bit>, shots: Shots, rng: Rng, op: Operation)
    returns (r: Result<Config>)
    ensures r == Apply(dev, Config(state, batched, values, shots, rng), op)
  {
    var st := state;
    var vals := values;
    var g := rng;
    if op.MidMeasure? {
      var (s, b, g1) := dev.applyMid(op, st, batched, g);
      st, g := s, g1;
      vals := vals[op.hash := b];
    } else {
      st := dev.apply(op, st, batched);
    }
    var sh := shots;
    if op.Projector? {
      var p := Postselect(dev, st, batched, sh, g);
      if p.Failure? {
        return Failure(p.error);
      }
      st, sh, g := p.value.0, p.value.1, p.value.2;
    }
    return Success(Config(st, batched || BatchSize(op).Some?, vals, sh, g));
  }

  /** The padding loop: one interleaving with zeros per untouched wire. */
  method PadState(state: State, pads: nat) returns (s: State)
    ensures s == PadTimes(state, pads)
  {
    s := state;
    var k := 0;
    while k < pads
      invariant 0 <= k <= pads
      invariant s == PadTimes(state, k)
    {
      s := Interleave(s);
      k := k + 1;
    }
  }

  /** `get_final_state`. */
  method GetFinalState(dev: Device, circuit: Circuit, g: Rng) returns (r: Result<Final>)
    ensures r == FinalStateOf(dev, circuit, g)
  {
    var prep: Option<Operation> := None;
    if |circuit.ops| > 0 && circuit.ops[0].StatePrep? {
      prep := Some(circuit.ops[0]);
    }
    var state := dev.initialState(CircuitOpWires(circuit), prep);
    var batched := prep.Some? && BatchSize(prep.value).Some?;
    var values: map<Hash, Bit> := map[];
    var shots := circuit.shots;
    var rng := g;
    var ops := if prep.Some? then circuit.ops[1..] else circuit.ops;
    ghost var c0 := InitialConfig(dev, circuit, g);
    assert ops == LoopOps(circuit);
    var i := 0;
    while i < |ops|
      invariant 0 <= i <= |ops|
      invariant Run(dev, c0, ops[..i]) == Success(Config(state, batched, values, shots, rng))
    {
      RunSnoc(dev, c0, ops, i);
      var op := ops[i];
      if op.Conditional? {
        if |op.mv.measurements| == 0 {
          RunStopsAt(dev, c0, ops, i);
          return Failure(IndexError);
        }
        var id := op.mv.measurements[0];
        if id !in values {
          RunStopsAt(dev, c0, ops, i);
          return Failure(KeyErrorMessage(MissingKeyMessage(id)));
        }
        if values[id] == 0 {
          i := i + 1;
          continue;
        }
        op := op.thenOp;
      }
      var next := ApplyOperation(dev, state, batched, values, shots, rng, op);
      if next.Failure? {
        RunStopsAt(dev, c0, ops, i);
        return Failure(next.error);
      }
      state, batched, values, shots, rng := next.value.state, next.value.batched, next.value.values, next.value.shots, next.value.rng;
      i := i + 1;
    }
    assert ops[..i] == ops;
    var pads := |CircuitWires(circuit)| - |CircuitOpWires(circuit)|;
    assert pads == PadCount(circuit);
    state := PadState(state, pads);
    r := Success(Final(state, batched, values, shots, rng));
  }
}
