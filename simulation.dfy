/** The simulation entry points: `simulate_native_mcm`, which runs one shot of a
    circuit with mid-circuit measurements, and `simulate`, which either repeats it
    once per shot and gathers the results, or evolves the state once and measures it. */
module Simulation {
  import opened Common
  import opened Circuits
  import opened Evolution
  import opened Measurement
  import opened McmIndices
  import opened Gathering

  function InvalidShotsMessage(total: nat): string
  {
    "Invalid circuit.shots.total_shots value " + NatToString(total) + "; only None is supported."
  }

  /** One shot in native mode: the analytic results of the remaining measurements, and
      the mid-circuit measurement outcomes recorded on the way. */
  datatype Trial = Trial(results: seq<real>, values: map<Hash, Bit>)

  /** What `simulate_native_mcm` returns, with the generator state after the shot. */
  function NativeMcmRun(dev: Device, circuit: Circuit, g: Rng): (r: Result<(Trial, Rng)>)
    ensures circuit.shots.Finite? ==>
      r == Failure(ValueError(InvalidShotsMessage(TotalShots(circuit.shots))))
    ensures circuit.shots.Analytic? ==> (r.Success? <==> FinalStateOf(dev, circuit, g).Success?)
    ensures circuit.shots.Analytic? && r.Success? ==>
      var f := FinalStateOf(dev, circuit, g).value;
      && r.value.0.results == AnalyticResults(dev, circuit.measurements, f.state, f.batched)
      && r.value.0.values == f.values
      && r.value.1 == f.rng
  {
    if circuit.shots.Finite? then Failure(ValueError(InvalidShotsMessage(TotalShots(circuit.shots))))
    else
      match FinalStateOf(dev, circuit, g)
      case Failure(e) => Failure(e)
      case Success(f) => Success((Trial(AnalyticResults(dev, circuit.measurements, f.state, f.batched), f.values), f.rng))
  }

  /** The results a shot records are those `measure_final_state` returns for a circuit
      without shots: the single result itself, or the tuple of all results. */
  lemma NativeMcmResults(dev: Device, circuit: Circuit, g: Rng)
    requires SamplerShaped(dev) && circuit.shots.Analytic?
    requires NativeMcmRun(dev, circuit, g).Success?
    ensures var f := FinalStateOf(dev, circuit, g).value;
      var results := NativeMcmRun(dev, circuit, g).value.0.results;
      var o := MeasureFinalState(dev, circuit, f.state, f.batched, f.rng).0;
      && (|circuit.measurements| == 1 ==> o == Bare(results[0]))
      && (|circuit.measurements| != 1 ==> o == Tuple(Bares(results)))
  {
  }

  /** `simulate_native_mcm`. */
  method SimulateNativeMcm(dev: Device, circuit: Circuit, g: Rng) returns (r: Result<(Trial, Rng)>)
    ensures r == NativeMcmRun(dev, circuit, g)
  {
    if circuit.shots.Finite? {
      return Failure(ValueError(InvalidShotsMessage(TotalShots(circuit.shots))));
    }
    var f := GetFinalState(dev, circuit, g);
    if f.Failure? {
      return Failure(f.error);
    }
    var results := AnalyticResults(dev, circuit.measurements, f.value.state, f.value.batched);
    return Success((Trial(results, f.value.values), f.value.rng));
  }

  /** `n` shots in a row, each starting from the generator state the previous one left. */
  function Trials(dev: Device, circuit: Circuit, n: nat, g: Rng): Result<(seq<Trial>, Rng)>
  {
    if n == 0 then Success(([], g))
    else
      match Trials(dev, circuit, n - 1, g)
      case Failure(e) => Failure(e)
      case Success(p) =>
        match NativeMcmRun(dev, circuit, p.1)
        case Failure(e) => Failure(e)
        case Success(q) => Success((p.0 + [q.0], q.1))
  }

  /** Exactly `n` shots are run, each with one result per remaining measurement. */
  lemma {:induction false} TrialsShape(dev: Device, circuit: Circuit, n: nat, g: Rng)
    requires circuit.shots.Analytic? && Trials(dev, circuit, n, g).Success?
    ensures var ts := Trials(dev, circuit, n, g).value.0;
      |ts| == n && forall t :: 0 <= t < n ==> |ts[t].results| == |circuit.measurements|
  {
    if n > 0 {
      TrialsShape(dev, circuit, n - 1, g);
    }
  }

  /** A failing shot ends the whole run with its error. */
  lemma {:induction false} TrialsStop(dev: Device, circuit: Circuit, k: nat, n: nat, g: Rng)
    requires k <= n && Trials(dev, circuit, k, g).Failure?
    ensures Trials(dev, circuit, n, g) == Trials(dev, circuit, k, g)
    decreases n
  {
    if k < n {
      TrialsStop(dev, circuit, k, n - 1, g);
    }
  }

  /** `[m + t for m, t in zip(a, b)]`. */
  function ZipAdd(a: seq<real>, b: seq<real>): (r: seq<real>)
    ensures |r| == if |a| < |b| then |a| else |b|
  {
    var n := if |a| < |b| then |a| else |b|;
    seq(n, i requires 0 <= i < n => a[i] + b[i])
  }

  /** The running sums of the shots' results: the first shot's results, then each
      further shot added entry by entry. */
  function Accumulate(ts: seq<Trial>): seq<real>
    requires |ts| > 0
    decreases |ts|
  {
    if |ts| == 1 then ts[0].results else ZipAdd(Accumulate(ts[..|ts| - 1]), ts[|ts| - 1].results)
  }

  /** The sum of result `j` over the shots. */
  function ColumnSum(ts: seq<Trial>, j: nat): real
    requires forall t :: 0 <= t < |ts| ==> j < |ts[t].results|
    decreases |ts|
  {
    if ts == [] then 0.0 else ColumnSum(ts[..|ts| - 1], j) + ts[|ts| - 1].results[j]
  }

  /** When every shot has `L` results, the running sums are the column sums. */
  lemma {:induction false} AccumulateSums(ts: seq<Trial>, L: nat)
    requires |ts| > 0
    requires forall t :: 0 <= t < |ts| ==> |ts[t].results| == L
    ensures |Accumulate(ts)| == L
    ensures forall j :: 0 <= j < L ==> Accumulate(ts)[j] == ColumnSum(ts, j)
    decreases |ts|
  {
    var n := |ts| - 1;
    if n == 0 {
      forall j | 0 <= j < L
        ensures Accumulate(ts)[j] == ColumnSum(ts, j)
      {
        assert ts[..0] == [];
      }
    } else {
      AccumulateSums(ts[..n], L);
    }
  }

  /** `mcm_meas`: the outcome dictionaries of the shots, in order. */
  function ValuesOf(ts: seq<Trial>): (r: seq<map<Hash, Bit>>)
    ensures |r| == |ts| && forall t :: 0 <= t < |ts| ==> r[t] == ts[t].values
  {
    seq(|ts|, t requires 0 <= t < |ts| => ts[t].values)
  }

  lemma {:induction false} ValidShotsTotal(s: Shots)
    requires ValidShots(s) && s.Finite?
    ensures TotalShots(s) >= s.partitions[0]
    decreases |s.partitions|
  {
    var p := s.partitions;
    if |p| > 1 {
      ValidShotsTotal(Finite(p[..|p| - 1]));
      assert p[..|p| - 1][0] == p[0];
    }
  }

  /** The circuit run once per shot in native mode: no shots, and only the analytic
      measurements. */
  function PerShotCircuit(circuit: Circuit): Circuit
  {
    Circuit(circuit.ops, AnalyticOnly(circuit.measurements), Analytic)
  }

  /** Whether `simulate` runs in native mid-circuit-measurement mode. */
  predicate NativeMode(circuit: Circuit)
  {
    HasMidCircuitMeasurements(circuit.ops) && circuit.shots.Finite?
  }

  datatype SimResult = Measured(output: Output) | GatheredResults(results: seq<Option<Gathered>>)

  /** What `simulate` returns, with the generator state after the last draw. */
  function SimulateSpec(dev: Device, circuit: Circuit, g: Rng): Result<(SimResult, Rng)>
    requires ValidShots(circuit.shots) && SamplerShaped(dev)
  {
    if NativeMode(circuit) then
      var total := TotalShots(circuit.shots);
      ValidShotsTotal(circuit.shots);
      match Trials(dev, PerShotCircuit(circuit), total, g)
      case Failure(e) => Failure(e)
      case Success(p) =>
        TrialsShape(dev, PerShotCircuit(circuit), total, g);
        match GatherSpec(circuit.measurements, total, Accumulate(p.0), ValuesOf(p.0))
        case Failure(e) => Failure(e)
        case Success(out) => Success((GatheredResults(out), p.1))
    else
      match FinalStateOf(dev, circuit, g)
      case Failure(e) => Failure(e)
      case Success(f) =>
        FinalStateProperties(dev, circuit, g);
        var (o, g1) := MeasureFinalState(dev, circuit.(shots := f.shots), f.state, f.batched, f.rng);
        Success((Measured(o), g1))
  }

  /** The shot loop of `simulate`: the first shot, then `total - 1` more, summing the
      analytic results entry by entry and collecting the outcome dictionaries. */
  method RepeatShots(dev: Device, tmp: Circuit, total: nat, g: Rng)
    returns (r: Result<(seq<real>, seq<map<Hash, Bit>>, Rng)>)
    requires total >= 1
    ensures Trials(dev, tmp, total, g).Failure? ==> r == Failure(Trials(dev, tmp, total, g).error)
    ensures Trials(dev, tmp, total, g).Success? ==>
      var ts := Trials(dev, tmp, total, g).value.0;
      |ts| == total && r == Success((Accumulate(ts), ValuesOf(ts), Trials(dev, tmp, total, g).value.1))
  {
    var first := SimulateNativeMcm(dev, tmp, g);
    assert Trials(dev, tmp, 1, g) == match first
      case Failure(e) => Failure(e)
      case Success(q) => Success(([] + [q.0], q.1));
    if first.Failure? {
      TrialsStop(dev, tmp, 1, total, g);
      return Failure(first.error);
    }
    var rng := first.value.1;
    var analytic := first.value.0.results;
    var mcm := [first.value.0.values];
    ghost var ts := [first.value.0];
    assert [] + ts == ts;
    var k := 0;
    while k < total - 1
      invariant 0 <= k <= total - 1
      invariant Trials(dev, tmp, k + 1, g) == Success((ts, rng))
      invariant |ts| == k + 1 && analytic == Accumulate(ts) && mcm == ValuesOf(ts)
    {
      TrialsSnoc(dev, tmp, k + 1, g, ts, rng);
      var next := SimulateNativeMcm(dev, tmp, rng);
      if next.Failure? {
        TrialsStop(dev, tmp, k + 2, total, g);
        return Failure(next.error);
      }
      analytic := ZipAdd(analytic, next.value.0.results);
      mcm := mcm + [next.value.0.values];
      ts := ts + [next.value.0];
      rng := next.value.1;
      k := k + 1;
    }
    return Success((analytic, mcm, rng));
  }

  /** One more shot after `k` successful ones. */
  lemma TrialsSnoc(dev: Device, tmp: Circuit, k: nat, g: Rng, ts: seq<Trial>, rng: Rng)
    requires Trials(dev, tmp, k, g) == Success((ts, rng)) && |ts| > 0
    ensures NativeMcmRun(dev, tmp, rng).Failure? ==>
      Trials(dev, tmp, k + 1, g) == Failure(NativeMcmRun(dev, tmp, rng).error)
    ensures NativeMcmRun(dev, tmp, rng).Success? ==>
      var q := NativeMcmRun(dev, tmp, rng).value;
      && Trials(dev, tmp, k + 1, g) == Success((ts + [q.0], q.1))
      && Accumulate(ts + [q.0]) == ZipAdd(Accumulate(ts), q.0.results)
      && ValuesOf(ts + [q.0]) == ValuesOf(ts) + [q.0.values]
  {
    if NativeMcmRun(dev, tmp, rng).Success? {
      var q := NativeMcmRun(dev, tmp, rng).value;
      assert (ts + [q.0])[..|ts|] == ts;
    }
  }

  /** `simulate`. */
  method Simulate(dev: Device, circuit: Circuit, g: Rng) returns (r: Result<(SimResult, Rng)>)
    requires ValidShots(circuit.shots) && SamplerShaped(dev)
    ensures r == SimulateSpec(dev, circuit, g)
  {
    var hasMcm := HasMidCircuitMeasurements(circuit.ops);
    var hasShots := circuit.shots.Finite?;
    if hasMcm && hasShots {
      var total := TotalShots(circuit.shots);
      ValidShotsTotal(circuit.shots);
      var kept := StripSamplingMeasurements(circuit.measurements);
      var tmp := Circuit(circuit.ops, kept, Analytic);
      assert tmp == PerShotCircuit(circuit);
      var shots := RepeatShots(dev, tmp, total, g);
      if shots.Failure? {
        return Failure(shots.error);
      }
      var (analytic, mcm, rng) := shots.value;
      var gathered := Gather(circuit.measurements, total, analytic, mcm);
      if gathered.Failure? {
        return Failure(gathered.error);
      }
      return Success((GatheredResults(gathered.value), rng));
    }
    var f := GetFinalState(dev, circuit, g);
    if f.Failure? {
      return Failure(f.error);
    }
    FinalStateProperties(dev, circuit, g);
    var (o, g1) := MeasureFinalState(dev, circuit.(shots := f.value.shots), f.value.state, f.value.batched, f.value.rng);
    return Success((Measured(o), g1));
  }

  /** In native mode, `simulate` runs exactly as many shots as the circuit's total,
      and each expectation value or probability is the average over the shots of the
      per-shot result of the same measurement. */
  lemma NativeModeAverages(dev: Device, circuit: Circuit, g: Rng)
    requires ValidShots(circuit.shots) && SamplerShaped(dev)
    requires NativeMode(circuit)
    requires SimulateSpec(dev, circuit, g).Success?
    ensures var total := TotalShots(circuit.shots);
      var ts := Trials(dev, PerShotCircuit(circuit), total, g).value.0;
      var out := SimulateSpec(dev, circuit, g).value.0.results;
      var idxA := IdxAnalytic(circuit.measurements);
      && |ts| == total
      && |out| == |circuit.measurements|
      && forall j :: 0 <= j < |idxA| ==>
           (forall t :: 0 <= t < |ts| ==> j < |ts[t].results|)
           && out[idxA[j]] == Some(Mean(ColumnSum(ts, j) / total as real))
  {
    var ms := circuit.measurements;
    var total := TotalShots(circuit.shots);
    ValidShotsTotal(circuit.shots);
    var tmp := PerShotCircuit(circuit);
    TrialsShape(dev, tmp, total, g);
    var ts := Trials(dev, tmp, total, g).value.0;
    AnalyticOnlyIndices(ms);
    AccumulateSums(ts, |tmp.measurements|);
    GatherMeaning(ms, total, Accumulate(ts), ValuesOf(ts));
  }

  /** In native mode, a counts result over a mid-circuit measurement counts how many of
      the shots recorded a one and how many did not. */
  lemma NativeModeCounts(dev: Device, circuit: Circuit, g: Rng, i: nat)
    requires ValidShots(circuit.shots) && SamplerShaped(dev)
    requires NativeMode(circuit)
    requires SimulateSpec(dev, circuit, g).Success?
    requires i < |circuit.measurements| && circuit.measurements[i].kind.Counts?
    ensures var total := TotalShots(circuit.shots);
      var ts := Trials(dev, PerShotCircuit(circuit), total, g).value.0;
      var out := SimulateSpec(dev, circuit, g).value.0.results;
      var m := circuit.measurements[i];
      && m.mv.Some? && |m.mv.value.measurements| > 0
      && out[i].Some? && out[i].value.Tally?
      && out[i].value.zeros + out[i].value.ones == total
      && out[i].value.ones == CountOnes(ValuesOf(ts), m.mv.value.measurements[0])
  {
    var ms := circuit.measurements;
    var total := TotalShots(circuit.shots);
    ValidShotsTotal(circuit.shots);
    var tmp := PerShotCircuit(circuit);
    TrialsShape(dev, tmp, total, g);
    var ts := Trials(dev, tmp, total, g).value.0;
    GatherMeaning(ms, total, Accumulate(ts), ValuesOf(ts));
    IndicesMeaning(ms, true);
    var idxS := IdxSampling(ms);
    var t :| 0 <= t < |idxS| && idxS[t] == i;
    SampleEntryMeaning(ms[i], ValuesOf(ts));
  }

  /** Outside native mode, `simulate` measures the final state of `get_final_state`,
      with the shots postselection left. */
  lemma MeasuresFinalState(dev: Device, circuit: Circuit, g: Rng)
    requires ValidShots(circuit.shots) && SamplerShaped(dev)
    requires !NativeMode(circuit)
    ensures SimulateSpec(dev, circuit, g).Success? <==> FinalStateOf(dev, circuit, g).Success?
    ensures SimulateSpec(dev, circuit, g).Success? ==>
      var f := FinalStateOf(dev, circuit, g).value;
      && (f.shots.Finite? <==> circuit.shots.Finite?)
      && (circuit.shots.Finite? ==> |f.shots.partitions| == |circuit.shots.partitions|)
      && SimulateSpec(dev, circuit, g).value ==
           (Measured(MeasureFinalState(dev, circuit.(shots := f.shots), f.state, f.batched, f.rng).0),
            MeasureFinalState(dev, circuit.(shots := f.shots), f.state, f.batched, f.rng).1)
  {
    if FinalStateOf(dev, circuit, g).Success? {
      FinalStateProperties(dev, circuit, g);
    }
  }
}
