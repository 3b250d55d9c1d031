/** `measure_final_state`: measuring the final state, analytically or with
    samples, and the nesting of the results it returns. */
module Measurement {
  import opened Common
  import opened Circuits

  /** A result as the simulator returns it: a bare value, or a tuple of results. */
  datatype Output = Bare(x: real) | Tuple(items: seq<Output>)

  /** The value found by following `path` (one tuple index per level) into `o`. */
  function Lookup(o: Output, path: seq<nat>): Option<real>
    decreases |path|
  {
    if path == [] then (if o.Bare? then Some(o.x) else None)
    else if o.Tuple? && path[0] < |o.items| then Lookup(o.items[path[0]], path[1..])
    else None
  }

  /** Where the result of measurement `j` for shot partition `p` sits: the partition
      axis is there only for partitioned shots, and the measurement axis only when
      the circuit does not have exactly one measurement. */
  function PathOf(partitioned: bool, measurements: nat, p: nat, j: nat): seq<nat>
  {
    (if partitioned then [p] else []) + (if measurements == 1 then [] else [j])
  }

  /** The analytic results, one `measure` call per measurement, in order. */
  function AnalyticResults(dev: Device, ms: seq<MeasurementProcess>, state: State, batched: bool): (r: seq<real>)
    ensures |r| == |ms|
    ensures forall j :: 0 <= j < |ms| ==> r[j] == dev.measure(ms[j], state, batched)
  {
    seq(|ms|, j requires 0 <= j < |ms| => dev.measure(ms[j], state, batched))
  }

  function Bares(row: seq<real>): (r: seq<Output>)
    ensures |r| == |row|
    ensures forall j :: 0 <= j < |row| ==> r[j] == Bare(row[j])
  {
    seq(|row|, j requires 0 <= j < |row| => Bare(row[j]))
  }

  /** `measure_final_state`: the results, and the generator state after sampling. */
  function MeasureFinalState(dev: Device, circuit: Circuit, state: State, batched: bool, g: Rng): (r: (Output, Rng))
    requires SamplerShaped(dev)
    requires circuit.shots.Finite? ==> |circuit.shots.partitions| > 0
    ensures circuit.shots.Analytic? ==> r.1 == g
    ensures circuit.shots.Finite? ==> r.1 == dev.sample(circuit.measurements, state, circuit.shots.partitions, batched, g).1
  {
    var ms := circuit.measurements;
    if circuit.shots.Analytic? then
      var results := AnalyticResults(dev, ms, state, batched);
      if |ms| == 1 then (Bare(results[0]), g) else (Tuple(Bares(results)), g)
    else
      var (table, g1) := dev.sample(ms, state, circuit.shots.partitions, batched, g);
      if |ms| == 1 then
        if Partitioned(circuit.shots) then
          (Tuple(seq(|table|, p requires 0 <= p < |table| => Bare(table[p][0]))), g1)
        else (Bare(table[0][0]), g1)
      else if Partitioned(circuit.shots) then
        (Tuple(seq(|table|, p requires 0 <= p < |table| => Tuple(Bares(table[p])))), g1)
      else (Tuple(Bares(table[0])), g1)
  }

  /** Every result sits where `PathOf` says: the analytic result of measurement `j`,
      or the sampled result of measurement `j` for shot partition `p`. */
  lemma MeasureFinalStateLayout(dev: Device, circuit: Circuit, state: State, batched: bool, g: Rng)
    requires SamplerShaped(dev)
    requires circuit.shots.Finite? ==> |circuit.shots.partitions| > 0
    ensures var o := MeasureFinalState(dev, circuit, state, batched, g).0;
      var ms := circuit.measurements;
      && (circuit.shots.Analytic? ==> forall j :: 0 <= j < |ms| ==>
            Lookup(o, PathOf(false, |ms|, 0, j)) == Some(dev.measure(ms[j], state, batched)))
      && (circuit.shots.Finite? ==>
            var table := dev.sample(ms, state, circuit.shots.partitions, batched, g).0;
            forall p, j :: 0 <= p < (if Partitioned(circuit.shots) then |table| else 1) && 0 <= j < |ms| ==>
              Lookup(o, PathOf(Partitioned(circuit.shots), |ms|, p, j)) == Some(table[p][j]))
  {
    var o := MeasureFinalState(dev, circuit, state, batched, g).0;
    var ms := circuit.measurements;
    if circuit.shots.Finite? {
      var table := dev.sample(ms, state, circuit.shots.partitions, batched, g).0;
      var part := Partitioned(circuit.shots);
      forall p, j | 0 <= p < (if part then |table| else 1) && 0 <= j < |ms|
        ensures Lookup(o, PathOf(part, |ms|, p, j)) == Some(table[p][j])
      {
        var path := PathOf(part, |ms|, p, j);
        assert |table| == |circuit.shots.partitions| && |table[p]| == |ms|;
        if part && |ms| != 1 {
          assert path == [p, j] && path[1..] == [j];
          assert o.items[p] == Tuple(Bares(table[p]));
          assert Lookup(o.items[p], [j]) == Lookup(Bare(table[p][j]), []);
        } else if part {
          assert path == [p] && path[1..] == [];
          assert o.items[p] == Bare(table[p][0]);
        } else if |ms| != 1 {
          assert path == [j] && path[1..] == [];
        } else {
          assert path == [];
        }
      }
    } else {
      forall j | 0 <= j < |ms|
        ensures Lookup(o, PathOf(false, |ms|, 0, j)) == Some(dev.measure(ms[j], state, batched))
      {
        var path := PathOf(false, |ms|, 0, j);
        if |ms| != 1 {
          assert path == [j] && path[1..] == [];
        } else {
          assert path == [];
        }
      }
    }
  }

  /** Nothing is found beyond the positions `PathOf` names: with partitioned shots the
      outer tuple has one entry per partition, and otherwise one per measurement
      (unless there is exactly one, which is returned bare). */
  lemma MeasureFinalStateWidth(dev: Device, circuit: Circuit, state: State, batched: bool, g: Rng)
    requires SamplerShaped(dev)
    requires circuit.shots.Finite? ==> |circuit.shots.partitions| > 0
    ensures var o := MeasureFinalState(dev, circuit, state, batched, g).0;
      && (Partitioned(circuit.shots) ==> o.Tuple? && |o.items| == |circuit.shots.partitions|)
      && (!Partitioned(circuit.shots) && |circuit.measurements| == 1 ==> o.Bare?)
      && (!Partitioned(circuit.shots) && |circuit.measurements| != 1 ==> o.Tuple? && |o.items| == |circuit.measurements|)
  {
  }
}
