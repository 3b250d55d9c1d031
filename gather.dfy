/** `gather_native_mid_circuit_measurements`: turning the per-shot results of native
    mid-circuit-measurement mode into the circuit's measurement results. */
module Gathering {
  import opened Common
  import opened Circuits
  import opened McmIndices

  /** One gathered result: an averaged expectation value or probability, a counts
      dictionary `{0: zeros, 1: ones}`, the array of sampled outcomes, or their variance. */
  datatype Gathered = Mean(x: real) | Tally(zeros: nat, ones: nat) | Samples(bits: seq<Bit>) | Spread(variance: real)

  function UnsupportedMessage(k: Kind): string
  {
    "Native mid-circuit measurement mode does not support " + KindName(k) + " measurements."
  }

  /** The number of shots whose recorded outcome for `sha` is one (`Counter()[sha]`
      after updating with every shot's dictionary; a shot that did not record `sha`
      adds nothing). */
  function CountOnes(mcm: seq<map<Hash, Bit>>, sha: Hash): (r: nat)
    ensures r <= |mcm|
    decreases |mcm|
  {
    if mcm == [] then 0
    else
      var d := mcm[|mcm| - 1];
      CountOnes(mcm[..|mcm| - 1], sha) + (if sha in d then d[sha] else 0)
  }

  /** `counter[k]`: a missing key counts zero. */
  function Get(counter: map<Hash, nat>, k: Hash): nat
  {
    if k in counter then counter[k] else 0
  }

  /** `counter.update(d)`: adds every entry of `d` to the counter. */
  function Update(counter: map<Hash, nat>, d: map<Hash, Bit>): (r: map<Hash, nat>)
    ensures r.Keys == counter.Keys + d.Keys
    ensures forall k :: Get(r, k) == Get(counter, k) + (if k in d then d[k] else 0)
  {
    map k | k in counter.Keys + d.Keys :: Get(counter, k) + (if k in d then d[k] else 0)
  }

  /** The counter after updating it with every shot's dictionary, in order. */
  function CounterOf(mcm: seq<map<Hash, Bit>>): map<Hash, nat>
    decreases |mcm|
  {
    if mcm == [] then map[] else Update(CounterOf(mcm[..|mcm| - 1]), mcm[|mcm| - 1])
  }

  lemma {:induction false} CounterCounts(mcm: seq<map<Hash, Bit>>, sha: Hash)
    ensures Get(CounterOf(mcm), sha) == CountOnes(mcm, sha)
    decreases |mcm|
  {
    if mcm != [] {
      CounterCounts(mcm[..|mcm| - 1], sha);
    }
  }

  /** `[dct[sha] for dct in mcm_meas]`: KeyError when some shot did not record `sha`. */
  function Outcomes(mcm: seq<map<Hash, Bit>>, sha: Hash): (r: Result<seq<Bit>>)
    ensures r.Success? <==> forall t :: 0 <= t < |mcm| ==> sha in mcm[t]
    ensures r.Failure? ==> r.error == KeyError(sha)
    ensures r.Success? ==> |r.value| == |mcm| && forall t :: 0 <= t < |mcm| ==> r.value[t] == mcm[t][sha]
    decreases |mcm|
  {
    if mcm == [] then Success([])
    else
      var n := |mcm| - 1;
      var pre := mcm[..n];
      assert forall t :: 0 <= t < n ==> pre[t] == mcm[t];
      match Outcomes(pre, sha)
      case Failure(e) => Failure(e)
      case Success(bits) =>
        if sha in mcm[n] then Success(bits + [mcm[n][sha]]) else Failure(KeyError(sha))
  }

  function Ones(bits: seq<Bit>): (r: nat)
    ensures r <= |bits|
    decreases |bits|
  {
    if bits == [] then 0 else Ones(bits[..|bits| - 1]) + bits[|bits| - 1]
  }

  /** When every shot recorded `sha`, the counted ones are the ones among the samples. */
  lemma {:induction false} CountsMatchSamples(mcm: seq<map<Hash, Bit>>, sha: Hash)
    requires Outcomes(mcm, sha).Success?
    ensures CountOnes(mcm, sha) == Ones(Outcomes(mcm, sha).value)
    decreases |mcm|
  {
    if mcm != [] {
      var n := |mcm| - 1;
      CountsMatchSamples(mcm[..n], sha);
      assert Outcomes(mcm, sha).value[..n] == Outcomes(mcm[..n], sha).value;
    }
  }

  /** Sum of squared deviations from `m`. */
  function SquaredDeviations(bits: seq<Bit>, m: real): real
    decreases |bits|
  {
    if bits == [] then 0.0
    else
      var x := bits[|bits| - 1] as real;
      SquaredDeviations(bits[..|bits| - 1], m) + (x - m) * (x - m)
  }

  /** The fraction of ones among the outcomes. */
  function Frequency(bits: seq<Bit>): real
    requires |bits| > 0
  {
    Ones(bits) as real / |bits| as real
  }

  /** `qml.math.var` of the outcome array: the mean squared deviation from the mean. */
  function Variance(bits: seq<Bit>): real
    requires |bits| > 0
  {
    SquaredDeviations(bits, Frequency(bits)) / |bits| as real
  }

  lemma {:induction false} SquaredDeviationsCount(bits: seq<Bit>, m: real)
    ensures SquaredDeviations(bits, m) ==
      Ones(bits) as real * (1.0 - m) * (1.0 - m) + (|bits| as real - Ones(bits) as real) * m * m
    decreases |bits|
  {
    if bits != [] {
      var pre := bits[..|bits| - 1];
      SquaredDeviationsCount(pre, m);
      DeviationStep(SquaredDeviations(pre, m), Ones(pre) as real, |pre| as real, bits[|bits| - 1], m);
    }
  }

  /** One more outcome `x` adds `(x - m)^2` to the sum, which moves it from the count
      form for `k` ones among `n` outcomes to that for `k + x` among `n + 1`. */
  lemma DeviationStep(s: real, k: real, n: real, x: Bit, m: real)
    requires s == k * (1.0 - m) * (1.0 - m) + (n - k) * m * m
    ensures s + (x as real - m) * (x as real - m) ==
      (k + x as real) * (1.0 - m) * (1.0 - m) + (n + 1.0 - (k + x as real)) * m * m
  {
    var a, b := (1.0 - m) * (1.0 - m), m * m;
    assert k * (1.0 - m) * (1.0 - m) == k * a;
    assert (k + x as real) * (1.0 - m) * (1.0 - m) == (k + x as real) * a;
    assert (n - k) * m * m == (n - k) * b;
    assert (n + 1.0 - (k + x as real)) * m * m == (n + 1.0 - (k + x as real)) * b;
    if x == 0 {
      assert (x as real - m) * (x as real - m) == b;
      assert (n + 1.0 - k) * b == (n - k) * b + b;
    } else {
      assert (x as real - m) * (x as real - m) == a;
      assert (k + 1.0) * a == k * a + a;
    }
  }

  lemma {:induction false} DeviationsByCount(bits: seq<Bit>, m: real, k: real, n: real)
    requires k == Ones(bits) as real && n == |bits| as real
    ensures SquaredDeviations(bits, m) == k * (1.0 - m) * (1.0 - m) + (n - k) * m * m
  {
    SquaredDeviationsCount(bits, m);
  }

  lemma BernoulliAlgebra(n: real, k: real, p: real, s: real)
    requires n > 0.0 && p == k / n
    requires s == k * (1.0 - p) * (1.0 - p) + (n - k) * p * p
    ensures s == n * (p * (1.0 - p))
  {
    assert k == n * p;
    calc {
      s;
      k * (1.0 - p) * (1.0 - p) + n * p * p - k * p * p;
      k - 2.0 * k * p + n * p * p;
      { assert n * p * p == k * p; }
      k - k * p;
      n * (p * (1.0 - p));
    }
  }

  lemma DivideBack(s: real, n: real, v: real)
    requires n > 0.0 && s == n * v
    ensures s / n == v
  {
  }

  lemma {:induction false} DeviationsClosedForm(bits: seq<Bit>)
    requires |bits| > 0
    ensures SquaredDeviations(bits, Frequency(bits)) == |bits| as real * (Frequency(bits) * (1.0 - Frequency(bits)))
  {
    var n := |bits| as real;
    var k := Ones(bits) as real;
    var p := Frequency(bits);
    var s := SquaredDeviations(bits, p);
    DeviationsByCount(bits, p, k, n);
    BernoulliAlgebra(n, k, p, s);
  }

  /** The variance of 0/1 outcomes with a fraction `p` of ones is `p * (1 - p)`. */
  lemma {:induction false} BernoulliVariance(bits: seq<Bit>)
    requires |bits| > 0
    ensures Variance(bits) == Frequency(bits) * (1.0 - Frequency(bits))
  {
    DeviationsClosedForm(bits);
    DivideBack(SquaredDeviations(bits, Frequency(bits)), |bits| as real, Frequency(bits) * (1.0 - Frequency(bits)));
  }

  /** The result of an analytic measurement: the summed result over the shots divided
      by the number of shots, for expectation values and probabilities only. */
  function AnalyticEntry(m: MeasurementProcess, x: real, total: nat): (r: Result<Gathered>)
    requires total > 0
  {
    if m.kind.Expectation? || m.kind.Probability? then Success(Mean(x / total as real))
    else Failure(ValueError(UnsupportedMessage(m.kind)))
  }

  /** The result of a sample-like measurement of a mid-circuit measurement value, from
      the outcomes the shots recorded under the hash of its first measurement. */
  function SampleEntry(m: MeasurementProcess, mcm: seq<map<Hash, Bit>>): (r: Result<Gathered>)
    requires SampleLike(m) && |mcm| > 0
  {
    match m.mv
    case None => Failure(AttributeError)
    case Some(mv) =>
      match FirstHash(mv)
      case Failure(e) => Failure(e)
      case Success(sha) =>
        if m.kind.Counts? then
          Success(Tally(|mcm| - CountOnes(mcm, sha), CountOnes(mcm, sha)))
        else
          match Outcomes(mcm, sha)
          case Failure(e) => Failure(e)
          case Success(bits) => if m.kind.Sample? then Success(Samples(bits)) else Success(Spread(Variance(bits)))
  }

  /** What each sample-like measurement yields: counts add up to the number of shots
      and count the shots that recorded a one; samples list every shot's outcome in
      shot order; the variance is that of a 0/1 variable with the observed frequency. */
  lemma {:induction false} SampleEntryMeaning(m: MeasurementProcess, mcm: seq<map<Hash, Bit>>)
    requires SampleLike(m) && |mcm| > 0
    ensures var r := SampleEntry(m, mcm);
      && (m.mv.None? ==> r == Failure(AttributeError))
      && (m.mv.Some? && m.mv.value.measurements == [] ==> r == Failure(IndexError))
      && (m.mv.Some? && m.mv.value.measurements != [] ==>
            var sha := m.mv.value.measurements[0];
            && (m.kind.Counts? ==> r.Success? && r.value.zeros + r.value.ones == |mcm|
                                   && r.value.ones == CountOnes(mcm, sha))
            && (!m.kind.Counts? ==> (r.Success? <==> forall t :: 0 <= t < |mcm| ==> sha in mcm[t]))
            && (!m.kind.Counts? && r.Failure? ==> r.error == KeyError(sha))
            && (m.kind.Sample? && r.Success? ==>
                  |r.value.bits| == |mcm| && forall t :: 0 <= t < |mcm| ==> r.value.bits[t] == mcm[t][sha])
            && (m.kind.Variance? && r.Success? ==>
                  var p := CountOnes(mcm, sha) as real / |mcm| as real;
                  r.value.variance == p * (1.0 - p)))
  {
    if m.mv.Some? && m.mv.value.measurements != [] {
      var sha := m.mv.value.measurements[0];
      if !m.kind.Counts? && Outcomes(mcm, sha).Success? {
        CountsMatchSamples(mcm, sha);
        BernoulliVariance(Outcomes(mcm, sha).value);
      }
    }
  }

  /** Filling `out` at positions `pos` with the entries `res`, in order, stopping at
      the first failing entry. */
  function Fill(out: seq<Option<Gathered>>, pos: seq<nat>, res: seq<Result<Gathered>>): (r: Result<seq<Option<Gathered>>>)
    requires |pos| == |res|
    requires forall t :: 0 <= t < |pos| ==> pos[t] < |out|
    ensures r.Success? ==> |r.value| == |out|
    decreases |pos|
  {
    if pos == [] then Success(out)
    else
      var n := |pos| - 1;
      match Fill(out, pos[..n], res[..n])
      case Failure(e) => Failure(e)
      case Success(o) =>
        match res[n]
        case Failure(e) => Failure(e)
        case Success(g) => Success(o[pos[n] := Some(g)])
  }

  /** Filling succeeds exactly when every entry does. */
  lemma {:induction false} FillSucceeds(out: seq<Option<Gathered>>, pos: seq<nat>, res: seq<Result<Gathered>>)
    requires |pos| == |res|
    requires forall t :: 0 <= t < |pos| ==> pos[t] < |out|
    ensures Fill(out, pos, res).Success? <==> forall t :: 0 <= t < |res| ==> res[t].Success?
    decreases |pos|
  {
    if pos != [] {
      var n := |pos| - 1;
      FillSucceeds(out, pos[..n], res[..n]);
      assert forall t :: 0 <= t < n ==> res[..n][t] == res[t];
    }
  }

  /** After a successful fill each position holds its entry and every other position
      is unchanged. */
  lemma {:induction false} FillValues(out: seq<Option<Gathered>>, pos: seq<nat>, res: seq<Result<Gathered>>)
    requires |pos| == |res|
    requires forall t :: 0 <= t < |pos| ==> pos[t] < |out|
    requires forall t, u :: 0 <= t < u < |pos| ==> pos[t] < pos[u]
    requires forall t :: 0 <= t < |res| ==> res[t].Success?
    ensures Fill(out, pos, res).Success?
    ensures forall t :: 0 <= t < |pos| ==> Fill(out, pos, res).value[pos[t]] == Some(res[t].value)
    ensures forall i :: 0 <= i < |out| && i !in pos ==> Fill(out, pos, res).value[i] == out[i]
    decreases |pos|
  {
    if pos != [] {
      var n := |pos| - 1;
      var pre := pos[..n];
      assert forall t :: 0 <= t < n ==> res[..n][t] == res[t];
      FillValues(out, pre, res[..n]);
      var o := Fill(out, pre, res[..n]).value;
      var o2 := Fill(out, pos, res).value;
      assert o2 == o[pos[n] := Some(res[n].value)];
      forall t | 0 <= t < |pos|
        ensures o2[pos[t]] == Some(res[t].value)
      {
        if t < n {
          assert pos[t] < pos[n];
          assert pre[t] == pos[t] && res[..n][t] == res[t];
        }
      }
      forall i | 0 <= i < |out| && i !in pos
        ensures o2[i] == out[i]
      {
        assert i !in pre;
      }
    }
  }

  /** With a failing entry, the first one's error is raised. */
  lemma {:induction false} FillFails(out: seq<Option<Gathered>>, pos: seq<nat>, res: seq<Result<Gathered>>, t: nat)
    requires |pos| == |res|
    requires forall u :: 0 <= u < |pos| ==> pos[u] < |out|
    requires t < |res| && res[t].Failure?
    requires forall u :: 0 <= u < t ==> res[u].Success?
    ensures Fill(out, pos, res) == Failure(res[t].error)
    decreases |pos|
  {
    var n := |pos| - 1;
    if t < n {
      FillFails(out, pos[..n], res[..n], t);
    } else {
      FillSucceeds(out, pos[..n], res[..n]);
    }
  }

  /** Extending a successful fill by one more successful entry. */
  lemma FillSnoc(out: seq<Option<Gathered>>, pos: seq<nat>, res: seq<Result<Gathered>>, t: nat, o: seq<Option<Gathered>>)
    requires |pos| == |res| && t < |pos|
    requires forall u :: 0 <= u < |pos| ==> pos[u] < |out|
    requires Fill(out, pos[..t], res[..t]) == Success(o) && res[t].Success?
    ensures Fill(out, pos[..t + 1], res[..t + 1]) == Success(o[pos[t] := Some(res[t].value)])
  {
    assert pos[..t + 1][..t] == pos[..t] && res[..t + 1][..t] == res[..t];
  }

  /** A successful fill followed by a failing entry fails with that entry's error. */
  lemma FillFailsAt(out: seq<Option<Gathered>>, pos: seq<nat>, res: seq<Result<Gathered>>, t: nat)
    requires |pos| == |res| && t < |pos|
    requires forall u :: 0 <= u < |pos| ==> pos[u] < |out|
    requires Fill(out, pos[..t], res[..t]).Success? && res[t].Failure?
    ensures Fill(out, pos, res) == Failure(res[t].error)
  {
    assert pos[..t + 1][..t] == pos[..t] && res[..t + 1][..t] == res[..t];
    FillStopsAt(out, pos, res, t);
  }

  /** A fill that fails at position `t` fails as a whole with that error. */
  lemma {:induction false} FillStopsAt(out: seq<Option<Gathered>>, pos: seq<nat>, res: seq<Result<Gathered>>, t: nat)
    requires |pos| == |res| && t < |pos|
    requires forall u :: 0 <= u < |pos| ==> pos[u] < |out|
    requires Fill(out, pos[..t + 1], res[..t + 1]).Failure?
    ensures Fill(out, pos, res) == Fill(out, pos[..t + 1], res[..t + 1])
    decreases |pos|
  {
    if t + 1 < |pos| {
      var n := |pos| - 1;
      assert pos[..n][..t + 1] == pos[..t + 1] && res[..n][..t + 1] == res[..t + 1];
      FillStopsAt(out, pos[..n], res[..n], t);
    } else {
      assert pos[..t + 1] == pos && res[..t + 1] == res;
    }
  }

  function Nones(n: nat): (r: seq<Option<Gathered>>)
    ensures |r| == n && forall i :: 0 <= i < n ==> r[i].None?
  {
    seq(n, _ => None)
  }

  /** How many analytic results are gathered: `zip` stops at the shorter of the index
      list and the summed results. */
  function Zipped(ms: seq<MeasurementProcess>, analytic: seq<real>): (n: nat)
    ensures n <= |IdxAnalytic(ms)| && n <= |analytic|
  {
    if |IdxAnalytic(ms)| < |analytic| then |IdxAnalytic(ms)| else |analytic|
  }

  function AnalyticPositions(ms: seq<MeasurementProcess>, analytic: seq<real>): (r: seq<nat>)
    ensures |r| == Zipped(ms, analytic)
    ensures forall t :: 0 <= t < |r| ==> r[t] == IdxAnalytic(ms)[t] && r[t] < |ms|
  {
    IdxAnalytic(ms)[..Zipped(ms, analytic)]
  }

  /** The analytic entries, in the order the source visits them. */
  function AnalyticEntries(ms: seq<MeasurementProcess>, total: nat, analytic: seq<real>): (r: seq<Result<Gathered>>)
    requires total > 0
    ensures |r| == Zipped(ms, analytic)
  {
    var idx := IdxAnalytic(ms);
    seq(Zipped(ms, analytic), t requires 0 <= t < Zipped(ms, analytic) => AnalyticEntry(ms[idx[t]], analytic[t], total))
  }

  /** The sample-like entries, in the order the source visits them. */
  function SampleEntries(ms: seq<MeasurementProcess>, mcm: seq<map<Hash, Bit>>): (r: seq<Result<Gathered>>)
    requires |mcm| > 0
    ensures |r| == |IdxSampling(ms)|
  {
    var idx := IdxSampling(ms);
    seq(|idx|, t requires 0 <= t < |idx| => SampleEntry(ms[idx[t]], mcm))
  }

  /** The analytic pass of the gathering. */
  function AnalyticPass(ms: seq<MeasurementProcess>, total: nat, analytic: seq<real>): (r: Result<seq<Option<Gathered>>>)
    requires total > 0
    ensures r.Success? ==> |r.value| == |ms|
  {
    Fill(Nones(|ms|), AnalyticPositions(ms, analytic), AnalyticEntries(ms, total, analytic))
  }

  /** The gathered results: analytic measurements first, then the sample-like ones. */
  function GatherSpec(ms: seq<MeasurementProcess>, total: nat, analytic: seq<real>, mcm: seq<map<Hash, Bit>>): Result<seq<Option<Gathered>>>
    requires total > 0 && |mcm| > 0
  {
    match AnalyticPass(ms, total, analytic)
    case Failure(e) => Failure(e)
    case Success(out) => Fill(out, IdxSampling(ms), SampleEntries(ms, mcm))
  }

  /** Every analytic measurement within reach of `zip` must be an expectation value or
      a probability; then its result is the summed result divided by the number of
      shots. */
  lemma {:induction false} AnalyticPassMeaning(ms: seq<MeasurementProcess>, total: nat, analytic: seq<real>)
    requires total > 0
    ensures var r := AnalyticPass(ms, total, analytic);
      var idxA := IdxAnalytic(ms);
      && (r.Success? <==> forall t :: 0 <= t < Zipped(ms, analytic) ==>
            ms[idxA[t]].kind.Expectation? || ms[idxA[t]].kind.Probability?)
      && (r.Success? ==>
            && (forall t :: 0 <= t < Zipped(ms, analytic) ==> r.value[idxA[t]] == Some(Mean(analytic[t] / total as real)))
            && (forall i :: 0 <= i < |ms| && i !in idxA ==> r.value[i].None?))
  {
    var idxA := IdxAnalytic(ms);
    var pos := AnalyticPositions(ms, analytic);
    var ares := AnalyticEntries(ms, total, analytic);
    FillSucceeds(Nones(|ms|), pos, ares);
    forall t | 0 <= t < |ares|
      ensures ares[t] == AnalyticEntry(ms[idxA[t]], analytic[t], total)
    {
    }
    if AnalyticPass(ms, total, analytic).Success? {
      IndicesMeaning(ms, false);
      FillValues(Nones(|ms|), pos, ares);
      forall i | 0 <= i < |ms| && i !in idxA
        ensures i !in pos
      {
      }
    }
  }

  /** Then every sample-like measurement must find its outcomes, and its result is
      the one `SampleEntry` describes; the analytic results stay in place. */
  lemma {:induction false} GatherMeaning(ms: seq<MeasurementProcess>, total: nat, analytic: seq<real>, mcm: seq<map<Hash, Bit>>)
    requires total > 0 && |mcm| > 0
    ensures var r := GatherSpec(ms, total, analytic, mcm);
      var idxA := IdxAnalytic(ms);
      var idxS := IdxSampling(ms);
      && (r.Success? <==>
            (forall t :: 0 <= t < Zipped(ms, analytic) ==>
               ms[idxA[t]].kind.Expectation? || ms[idxA[t]].kind.Probability?)
            && (forall t :: 0 <= t < |idxS| ==> SampleEntry(ms[idxS[t]], mcm).Success?))
      && (r.Success? ==>
            && |r.value| == |ms|
            && (forall t :: 0 <= t < Zipped(ms, analytic) ==>
                  r.value[idxA[t]] == Some(Mean(analytic[t] / total as real)))
            && (forall t :: 0 <= t < |idxS| ==>
                  r.value[idxS[t]] == Some(SampleEntry(ms[idxS[t]], mcm).value)))
  {
    var idxA := IdxAnalytic(ms);
    var idxS := IdxSampling(ms);
    var sres := SampleEntries(ms, mcm);
    AnalyticPassMeaning(ms, total, analytic);
    if AnalyticPass(ms, total, analytic).Success? {
      var out := AnalyticPass(ms, total, analytic).value;
      FillSucceeds(out, idxS, sres);
      if GatherSpec(ms, total, analytic, mcm).Success? {
        IndicesMeaning(ms, true);
        FillValues(out, idxS, sres);
        var r := GatherSpec(ms, total, analytic, mcm).value;
        forall t | 0 <= t < Zipped(ms, analytic)
          ensures r[idxA[t]] == Some(Mean(analytic[t] / total as real))
        {
          IdxPartition(ms);
          assert idxA[t] in idxA;
        }
      }
    }
  }

  /** The first analytic measurement, in circuit order, that is neither an expectation
      value nor a probability raises the unsupported-measurement error, before any
      sample-like measurement is looked at. */
  lemma GatherUnsupported(ms: seq<MeasurementProcess>, total: nat, analytic: seq<real>, mcm: seq<map<Hash, Bit>>, t: nat)
    requires total > 0 && |mcm| > 0
    requires t < Zipped(ms, analytic)
    requires var k := ms[IdxAnalytic(ms)[t]].kind; !k.Expectation? && !k.Probability?
    requires forall u :: 0 <= u < t ==>
      ms[IdxAnalytic(ms)[u]].kind.Expectation? || ms[IdxAnalytic(ms)[u]].kind.Probability?
    ensures GatherSpec(ms, total, analytic, mcm) ==
      Failure(ValueError(UnsupportedMessage(ms[IdxAnalytic(ms)[t]].kind)))
  {
    FillFails(Nones(|ms|), AnalyticPositions(ms, analytic), AnalyticEntries(ms, total, analytic), t);
  }

  /** With one summed result per analytic measurement, every measurement gets a result. */
  lemma GatherComplete(ms: seq<MeasurementProcess>, total: nat, analytic: seq<real>, mcm: seq<map<Hash, Bit>>)
    requires total > 0 && |mcm| > 0
    requires |analytic| == |IdxAnalytic(ms)|
    requires GatherSpec(ms, total, analytic, mcm).Success?
    ensures forall i :: 0 <= i < |ms| ==> GatherSpec(ms, total, analytic, mcm).value[i].Some?
  {
    GatherMeaning(ms, total, analytic, mcm);
    IndicesMeaning(ms, true);
    IndicesMeaning(ms, false);
    IdxPartition(ms);
    var r := GatherSpec(ms, total, analytic, mcm).value;
    forall i | 0 <= i < |ms|
      ensures r[i].Some?
    {
      if i in IdxSampling(ms) {
        var t :| 0 <= t < |IdxSampling(ms)| && IdxSampling(ms)[t] == i;
      } else {
        var t :| 0 <= t < |IdxAnalytic(ms)| && IdxAnalytic(ms)[t] == i;
      }
    }
  }

  /** The loop over `zip(idx_analytic, analytic_meas)`: the summed result divided by
      the number of shots, or the unsupported-measurement error. */
  method NormalizeAnalytic(ms: seq<MeasurementProcess>, total: nat, analytic: seq<real>)
    returns (r: Result<seq<Option<Gathered>>>)
    requires total > 0
    ensures r == AnalyticPass(ms, total, analytic)
  {
    var idxA := IdxAnalytic(ms);
    var normalized := Nones(|ms|);
    ghost var pos := AnalyticPositions(ms, analytic);
    ghost var ares := AnalyticEntries(ms, total, analytic);
    var t := 0;
    while t < |idxA| && t < |analytic|
      invariant 0 <= t <= |ares|
      invariant Fill(Nones(|ms|), pos[..t], ares[..t]) == Success(normalized)
    {
      var i := idxA[t];
      if ms[i].kind.Expectation? || ms[i].kind.Probability? {
        FillSnoc(Nones(|ms|), pos, ares, t, normalized);
        normalized := normalized[i := Some(Mean(analytic[t] / total as real))];
      } else {
        r := Failure(ValueError(UnsupportedMessage(ms[i].kind)));
        FillFailsAt(Nones(|ms|), pos, ares, t);
        return;
      }
      t := t + 1;
    }
    assert pos[..t] == pos && ares[..t] == ares;
    r := Success(normalized);
  }

  /** `counter = Counter()` updated with every shot's dictionary. */
  method CountOutcomes(mcm: seq<map<Hash, Bit>>) returns (counter: map<Hash, nat>)
    ensures counter == CounterOf(mcm)
  {
    counter := map[];
    var d := 0;
    while d < |mcm|
      invariant 0 <= d <= |mcm|
      invariant counter == CounterOf(mcm[..d])
    {
      assert mcm[..d + 1][..d] == mcm[..d];
      counter := Update(counter, mcm[d]);
      d := d + 1;
    }
    assert mcm[..d] == mcm;
  }

  /** `any(isinstance(m, CountsMP) for m in circuit.measurements)`. */
  function AnyCounts(ms: seq<MeasurementProcess>): bool
    decreases |ms|
  {
    ms != [] && (AnyCounts(ms[..|ms| - 1]) || ms[|ms| - 1].kind.Counts?)
  }

  lemma {:induction false} AnyCountsAt(ms: seq<MeasurementProcess>, i: nat)
    requires i < |ms|
    ensures ms[i].kind.Counts? ==> AnyCounts(ms)
    decreases |ms|
  {
    if i < |ms| - 1 {
      AnyCountsAt(ms[..|ms| - 1], i);
    }
  }

  /** The result of one sample-like measurement, reading the counter for counts. */
  method GatherSampled(m: MeasurementProcess, mcm: seq<map<Hash, Bit>>, counter: map<Hash, nat>)
    returns (entry: Result<Gathered>)
    requires SampleLike(m) && |mcm| > 0
    requires m.kind.Counts? ==> counter == CounterOf(mcm)
    ensures entry == SampleEntry(m, mcm)
  {
    if m.mv.None? {
      return Failure(AttributeError);
    }
    if m.mv.value.measurements == [] {
      return Failure(IndexError);
    }
    var sha := m.mv.value.measurements[0];
    if m.kind.Counts? {
      CounterCounts(mcm, sha);
      return Success(Tally(|mcm| - Get(counter, sha), Get(counter, sha)));
    }
    var outcomes := Outcomes(mcm, sha);
    if outcomes.Failure? {
      return Failure(outcomes.error);
    }
    if m.kind.Sample? {
      return Success(Samples(outcomes.value));
    }
    return Success(Spread(Variance(outcomes.value)));
  }

  /** `gather_native_mid_circuit_measurements(circuit, analytic_meas, mcm_meas)` with
      `total` the circuit's total number of shots. */
  method Gather(ms: seq<MeasurementProcess>, total: nat, analytic: seq<real>, mcm: seq<map<Hash, Bit>>)
    returns (r: Result<seq<Option<Gathered>>>)
    requires total > 0 && |mcm| > 0
    ensures r == GatherSpec(ms, total, analytic, mcm)
  {
    r := NormalizeAnalytic(ms, total, analytic);
    if r.Failure? {
      return;
    }
    var normalized := r.value;
    ghost var mid := normalized;
    var idxS := IdxSampling(ms);
    var counter: map<Hash, nat> := map[];
    var anyCounts := AnyCounts(ms);
    if anyCounts {
      counter := CountOutcomes(mcm);
    }
    ghost var sres := SampleEntries(ms, mcm);
    var s := 0;
    while s < |idxS|
      invariant 0 <= s <= |idxS|
      invariant Fill(mid, idxS[..s], sres[..s]) == Success(normalized)
    {
      var i := idxS[s];
      AnyCountsAt(ms, i);
      var entry := GatherSampled(ms[i], mcm, counter);
      if entry.Failure? {
        r := Failure(entry.error);
        FillFailsAt(mid, idxS, sres, s);
        return;
      }
      FillSnoc(mid, idxS, sres, s, normalized);
      normalized := normalized[i := Some(entry.value)];
      s := s + 1;
    }
    assert idxS[..s] == idxS && sres[..s] == sres;
    r := Success(normalized);
  }
}
