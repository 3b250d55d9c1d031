/** How native mid-circuit-measurement mode splits a circuit's measurements:
    `has_mid_circuit_measurements`, `idx_sampling_measurements`,
    `idx_analytic_measurements`, and the removal of the sample-like measurements
    from the per-shot circuit. */
module McmIndices {
  import opened Common
  import opened Circuits

  /** `has_mid_circuit_measurements`: some top-level operation is a mid-circuit measurement. */
  function HasMidCircuitMeasurements(ops: seq<Operation>): (r: bool)
    ensures r <==> exists i :: 0 <= i < |ops| && ops[i].MidMeasure?
    decreases |ops|
  {
    if ops == [] then false
    else
      var pre := ops[..|ops| - 1];
      var r := HasMidCircuitMeasurements(pre) || ops[|ops| - 1].MidMeasure?;
      assert HasMidCircuitMeasurements(pre) ==> exists i :: 0 <= i < |ops| && ops[i].MidMeasure? by {
        if HasMidCircuitMeasurements(pre) {
          var i :| 0 <= i < |pre| && pre[i].MidMeasure?;
          assert ops[i] == pre[i];
        }
      }
      assert (exists i :: 0 <= i < |ops| && ops[i].MidMeasure?) ==> r by {
        if exists i :: 0 <= i < |ops| && ops[i].MidMeasure? {
          var i :| 0 <= i < |ops| && ops[i].MidMeasure?;
          if i < |pre| {
            assert pre[i] == ops[i];
          }
        }
      }
      r
  }

  /** Counts, samples and variances are sample-like: in native mode they are built
      from the recorded outcomes of every shot. */
  predicate SampleLike(m: MeasurementProcess)
  {
    m.kind.Counts? || m.kind.Sample? || m.kind.Variance?
  }

  /** The indices `i`, in increasing order, whose measurement is sample-like
      exactly when `sampleLike` holds. */
  function Indices(ms: seq<MeasurementProcess>, sampleLike: bool): (r: seq<nat>)
    ensures forall t :: 0 <= t < |r| ==> r[t] < |ms| && SampleLike(ms[r[t]]) == sampleLike
    decreases |ms|
  {
    if ms == [] then []
    else
      var n := |ms| - 1;
      Indices(ms[..n], sampleLike) + (if SampleLike(ms[n]) == sampleLike then [n] else [])
  }

  /** The indices are strictly increasing, and an index is listed exactly when its
      measurement is sample-like as asked. */
  lemma {:induction false} IndicesMeaning(ms: seq<MeasurementProcess>, sampleLike: bool)
    ensures var r := Indices(ms, sampleLike);
      && (forall t, u :: 0 <= t < u < |r| ==> r[t] < r[u])
      && (forall i :: 0 <= i < |ms| ==> (i in r <==> SampleLike(ms[i]) == sampleLike))
    decreases |ms|
  {
    if ms != [] {
      var n := |ms| - 1;
      IndicesMeaning(ms[..n], sampleLike);
      assert forall i :: 0 <= i < n ==> ms[..n][i] == ms[i];
    }
  }

  /** `idx_sampling_measurements`. */
  function IdxSampling(ms: seq<MeasurementProcess>): seq<nat>
  {
    Indices(ms, true)
  }

  /** `idx_analytic_measurements`. */
  function IdxAnalytic(ms: seq<MeasurementProcess>): seq<nat>
  {
    Indices(ms, false)
  }

  /** The two index lists partition the measurement indices. */
  lemma {:induction false} IdxPartition(ms: seq<MeasurementProcess>)
    ensures forall i :: 0 <= i < |ms| ==> (i in IdxSampling(ms) <==> i !in IdxAnalytic(ms))
    ensures |IdxSampling(ms)| + |IdxAnalytic(ms)| == |ms|
    decreases |ms|
  {
    IndicesMeaning(ms, true);
    IndicesMeaning(ms, false);
    if ms != [] {
      IdxPartition(ms[..|ms| - 1]);
    }
  }

  /** The measurements left after removing the sample-like ones, in order. */
  function AnalyticOnly(ms: seq<MeasurementProcess>): seq<MeasurementProcess>
  {
    if ms == [] then [] else (if SampleLike(ms[0]) then [] else [ms[0]]) + AnalyticOnly(ms[1..])
  }

  lemma {:induction false} AnalyticOnlyAppend(a: seq<MeasurementProcess>, b: seq<MeasurementProcess>)
    ensures AnalyticOnly(a + b) == AnalyticOnly(a) + AnalyticOnly(b)
    decreases |a|
  {
    if a != [] {
      assert (a + b)[1..] == a[1..] + b;
      AnalyticOnlyAppend(a[1..], b);
    } else {
      assert a + b == b;
    }
  }

  lemma {:induction false} AnalyticOnlyKeeps(ms: seq<MeasurementProcess>)
    requires forall i :: 0 <= i < |ms| ==> !SampleLike(ms[i])
    ensures AnalyticOnly(ms) == ms
    decreases |ms|
  {
    if ms != [] {
      AnalyticOnlyKeeps(ms[1..]);
    }
  }

  /** The remaining measurements are those at the analytic indices, in that order. */
  lemma {:induction false} AnalyticOnlyIndices(ms: seq<MeasurementProcess>)
    ensures |AnalyticOnly(ms)| == |IdxAnalytic(ms)|
    ensures forall t :: 0 <= t < |IdxAnalytic(ms)| ==> AnalyticOnly(ms)[t] == ms[IdxAnalytic(ms)[t]]
    decreases |ms|
  {
    if ms != [] {
      var n := |ms| - 1;
      var pre := ms[..n];
      AnalyticOnlyIndices(pre);
      assert ms == pre + [ms[n]];
      AnalyticOnlyAppend(pre, [ms[n]]);
      assert AnalyticOnly([ms[n]]) == (if SampleLike(ms[n]) then [] else [ms[n]]);
      assert IdxAnalytic(ms) == IdxAnalytic(pre) + (if SampleLike(ms[n]) then [] else [n]);
    }
  }

  /** Where the loop of pops stands after removing `idx[k..]`: everything before
      position `idx[k]` is untouched. */
  function PopFront(ms: seq<MeasurementProcess>, idx: seq<nat>, k: nat): nat
    requires k <= |idx|
    requires forall t :: 0 <= t < |idx| ==> idx[t] < |ms|
  {
    if k == |idx| then |ms| else idx[k]
  }

  /** No sample-like measurement lies strictly between two consecutive sampling indices
      (or after the last one, or before the first one). */
  lemma Gap(ms: seq<MeasurementProcess>, k: nat, i: nat)
    requires k <= |IdxSampling(ms)|
    requires (if k == 0 then 0 else IdxSampling(ms)[k - 1] + 1) <= i < PopFront(ms, IdxSampling(ms), k)
    ensures !SampleLike(ms[i])
  {
    var idx := IdxSampling(ms);
    IndicesMeaning(ms, true);
    forall t | 0 <= t < |idx|
      ensures idx[t] != i
    {
      if t < k - 1 {
        assert idx[t] < idx[k - 1];
      } else if k < t {
        assert idx[k] < idx[t];
      }
    }
  }

  /** Removing the sample-like measurement at `q` from a suffix whose stretch up to
      `p` holds no other sample-like measurement. */
  lemma AnalyticOnlyFrom(ms: seq<MeasurementProcess>, q: nat, p: nat)
    requires q < p <= |ms| && SampleLike(ms[q])
    requires forall i :: q < i < p ==> !SampleLike(ms[i])
    ensures AnalyticOnly(ms[q..]) == ms[q + 1..p] + AnalyticOnly(ms[p..])
  {
    var mid := ms[q + 1..p];
    forall i | 0 <= i < |mid|
      ensures !SampleLike(mid[i])
    {
      assert mid[i] == ms[q + 1 + i];
    }
    AnalyticOnlyKeeps(mid);
    assert ms[q..] == [ms[q]] + mid + ms[p..];
    AnalyticOnlyAppend([ms[q]] + mid, ms[p..]);
    AnalyticOnlyAppend([ms[q]], mid);
  }

  /** One pop, at sampling index `idx[k - 1]`, moves the front of the loop there. */
  lemma PopStep(ms: seq<MeasurementProcess>, k: nat)
    requires 0 < k <= |IdxSampling(ms)|
    ensures var idx := IdxSampling(ms);
      var p := PopFront(ms, idx, k);
      var q := idx[k - 1];
      var r := ms[..p] + AnalyticOnly(ms[p..]);
      q < p && r[..q] + r[q + 1..] == ms[..q] + AnalyticOnly(ms[q..])
  {
    var idx := IdxSampling(ms);
    var p := PopFront(ms, idx, k);
    var q := idx[k - 1];
    var r := ms[..p] + AnalyticOnly(ms[p..]);
    assert q < p by {
      IndicesMeaning(ms, true);
    }
    forall i | q < i < p
      ensures !SampleLike(ms[i])
    {
      Gap(ms, k, i);
    }
    AnalyticOnlyFrom(ms, q, p);
    assert r[..q] == ms[..q];
    assert r[q + 1..] == ms[q + 1..p] + AnalyticOnly(ms[p..]);
  }

  /** `for i in reversed(idx_sample): tmpcirc._measurements.pop(i)`: popping the
      sample-like measurements from the back leaves the analytic ones in order. */
  method StripSamplingMeasurements(ms: seq<MeasurementProcess>) returns (r: seq<MeasurementProcess>)
    ensures r == AnalyticOnly(ms)
    ensures |r| == |IdxAnalytic(ms)|
    ensures forall t :: 0 <= t < |r| ==> r[t] == ms[IdxAnalytic(ms)[t]]
  {
    var idx := IdxSampling(ms);
    r := ms;
    var k := |idx|;
    while k > 0
      invariant 0 <= k <= |idx|
      invariant var p := PopFront(ms, idx, k); r == ms[..p] + AnalyticOnly(ms[p..])
    {
      var q := idx[k - 1];
      PopStep(ms, k);
      r := r[..q] + r[q + 1..];
      k := k - 1;
    }
    var p := PopFront(ms, idx, 0);
    var front := ms[..p];
    forall i | 0 <= i < |front|
      ensures !SampleLike(front[i])
    {
      Gap(ms, 0, i);
    }
    AnalyticOnlyKeeps(front);
    AnalyticOnlyAppend(ms[..p], ms[p..]);
    assert ms[..p] + ms[p..] == ms;
    AnalyticOnlyIndices(ms);
  }
}
