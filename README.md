# PennyLane statevector simulation driver, LinearCombination algebra and NoiseModel, in Dafny

This project models three parts of PennyLane.

- **The statevector simulation driver** of `default.qubit` (`pennylane/devices/qubit/simulate.py`). This covers:
  - `get_final_state`: evolving the initial state through the operations, with classically conditioned operations, mid-circuit measurements, postselection and zero-padding of unused wires;
  - `measure_final_state`: the nesting of the returned results;
  - `simulate`: either one evolution followed by a measurement, or native mid-circuit-measurement mode. In that mode the circuit is run once per shot, the analytic results are summed, and `gather_native_mid_circuit_measurements` normalises the analytic measurements and builds counts, samples and variances from the recorded outcomes;
  - the helpers `simulate_native_mcm`, `has_mid_circuit_measurements`, `idx_sampling_measurements` and `idx_analytic_measurements`.
- **`LinearCombination`** (`pennylane/ops/op_math/linear_combination.py`). A class holding a coefficient list, an operator list and cached grouping indices. It has a length-checked constructor, `+`, scalar `*`, `@`, `map_wires`, `_flatten`/`_unflatten` and `_obs_data`.
- **`NoiseModel`** (`pennylane/noise/noise_model.py`). A value holding a condition-to-noise dictionary and metadata, with the accessors, `-`, `+` and `__radd__`.

Modules:

- `Common`: `Option`, `Result`, and the Python exceptions raised (`KeyError`, `IndexError`, `AttributeError`, `ValueError`, `TypeError`).
- `Circuits`: operations, measurement processes, shots and circuits.
- `Evolution`: `get_final_state` and `_postselection_postprocess`.
- `Measurement`: `measure_final_state`.
- `McmIndices`: the index helpers and the removal of sample-like measurements.
- `Gathering`: `gather_native_mid_circuit_measurements`.
- `Simulation`: `simulate` and `simulate_native_mcm`.
- `LinearCombinations` and `NoiseModels`.

How the model is built:

- **Numerics are parameters.** Applying a gate, creating the initial state, the norm division after postselection, the binomial redraw of shots, `measure` and `measure_with_samples` are all function-valued fields of a `Device` value. The model reasons about what the driver does with their results.
- **Randomness is a threaded value.** Every random draw takes a generator state (`Rng`) and returns the next one, in call order. Draws happen in a mid-circuit measurement, in the binomial redraw and in sampling.
- **Two assumptions about the collaborators are stated as predicates.** `BinomialBounded` says a binomial draw never exceeds its trial count. `SamplerShaped` says sampling returns one row per shot partition, with one entry per measurement.
- **Imperative code is proved against a specification.** The loops of the source are Dafny methods with loop invariants:
  - the operation loop of `get_final_state`;
  - the pop loop and the trial loop of `simulate`;
  - the normalising loop, the `Counter` loop and the sample-like loop of the gathering;
  - the set-building loop of `_obs_data`.

  Each method is proved equal to a recursive specification function. The source's promises are proved as lemmas about that function.

## Model

| member | source | states |
|---|---|---|
| `Circuits.FirstHash` | pennylane/devices/qubit/simulate.py:139 | `meas_val.measurements[0]` raises IndexError on an empty measurement value; otherwise it is the first hash |
| `Evolution.Redraw` | pennylane/devices/qubit/simulate.py:93-104 | one binomial draw per shot partition: the partition count is kept and, for a bounded draw, no partition grows |
| `Evolution.Postselect` | pennylane/devices/qubit/simulate.py:74-107 | a batched state raises ValueError with the broadcasting message, before any division; otherwise the state is renormalised, the kind of shots and the partition count are kept, no partition grows, and without shots no draw is made |
| `Evolution.RunAppend` | pennylane/devices/qubit/simulate.py:137-155 | the operation loop is sequential: running `a + b` is running `a`, then running `b` from where `a` stopped, and an exception in `a` ends the loop |
| `Evolution.RunStopsAt` | pennylane/devices/qubit/simulate.py:140-141 | once the loop raises at some operation, the whole call raises that exception |
| `Evolution.MissingKeyStops` | pennylane/devices/qubit/simulate.py:138-141 | a conditional whose first referenced measurement has no recorded outcome raises `KeyError("Measurement key <hash> not found.")`, whatever follows it |
| `Evolution.FalsySkips` | pennylane/devices/qubit/simulate.py:142-143 | a conditional whose measurement recorded 0 is skipped: state, batch flag, outcomes, shots and generator are unchanged, and nothing is applied |
| `Evolution.StepValues` | pennylane/devices/qubit/simulate.py:144-147 | an applied mid-circuit measurement stores the outcome `apply_operation` drew under its own hash; no other step adds or changes an entry |
| `Evolution.RunValues` | pennylane/devices/qubit/simulate.py:136-147 | after the loop, the recorded keys are exactly the hashes of the applied mid-circuit measurements; other entries are untouched |
| `Evolution.RunBatched` | pennylane/devices/qubit/simulate.py:134-135 | the final batch flag is the initial flag OR "some applied operation has a batch size", so it never goes from true to false |
| `Evolution.RunShots` | pennylane/devices/qubit/simulate.py:149-152 | postselection inside the loop keeps the kind of shots and the partition count, and for a bounded draw never increases a partition |
| `Evolution.InterleaveLayout` | pennylane/devices/qubit/simulate.py:157-160 | one padding step doubles the state: old amplitude `k` is at position `2k`, and a zero is at `2k + 1` |
| `Evolution.PadTimesLength` | pennylane/devices/qubit/simulate.py:157-160 | `n` padding steps multiply the length of the state by `2^n` |
| `Evolution.PadTimesAt` | pennylane/devices/qubit/simulate.py:157-160 | after `n` padding steps amplitude `k` sits at position `k * 2^n` |
| `Evolution.PadTimesLayout` | pennylane/devices/qubit/simulate.py:157-160 | `n` padding steps multiply the length by `2^n`, and amplitude `k` ends at position `k * 2^n` |
| `Evolution.PadState` | pennylane/devices/qubit/simulate.py:157-160 | the padding loop, one `stack([state, zeros_like(state)], axis=-1)` per untouched wire, yields the state padded `pads` times |
| `Evolution.ApplyOperation` | pennylane/devices/qubit/simulate.py:144-155 | one loop step after the conditional is resolved: apply the operation (recording the outcome of a mid-circuit measurement), postselect on a projector and update the batch flag, or raise what postselection raises |
| `Evolution.FinalStateProperties` | pennylane/devices/qubit/simulate.py:110-162 | the final state is the loop's state padded once per declared wire that no operation touches (`len(circuit.wires) - len(circuit.op_wires)` times), each amplitude at `k * 2^pads`; also the recorded outcomes, the batch flag and the shots as above |
| `Evolution.GetFinalState` | pennylane/devices/qubit/simulate.py:110-162 | the imperative loop and padding loop compute exactly the specification `FinalStateOf`, including where and with which exception it stops |
| `Measurement.AnalyticResults` | pennylane/devices/qubit/simulate.py:192-197 | one `measure` result per measurement process, in order |
| `Measurement.MeasureFinalState` | pennylane/devices/qubit/simulate.py:187-217 | analytic measurement draws nothing; with shots, the generator advances by exactly one sampling call |
| `Measurement.MeasureFinalStateLayout` | pennylane/devices/qubit/simulate.py:189-217 | every result sits at its path: partition index only for partitioned shots, and measurement index only when there is not exactly one measurement |
| `Measurement.MeasureFinalStateWidth` | pennylane/devices/qubit/simulate.py:211-217 | partitioned shots give a tuple with one entry per partition; otherwise one measurement gives a bare value, and several give a tuple with one entry per measurement |
| `McmIndices.HasMidCircuitMeasurements` | pennylane/devices/qubit/simulate.py:318-320 | true exactly when some top-level operation is a mid-circuit measurement |
| `McmIndices.Indices` | pennylane/devices/qubit/simulate.py:323-338 | every listed index is in range, and its measurement has the requested sample-like-ness |
| `McmIndices.IndicesMeaning` | pennylane/devices/qubit/simulate.py:323-338 | the listed indices are strictly increasing, and an index is listed exactly when its measurement is (respectively is not) a counts, sample or variance |
| `McmIndices.IdxPartition` | pennylane/devices/qubit/simulate.py:323-338 | `idx_sampling_measurements` and `idx_analytic_measurements` partition the measurement indices |
| `McmIndices.AnalyticOnlyIndices` | pennylane/devices/qubit/simulate.py:263-265 | the measurements left after removing the sample-like ones are exactly those at the analytic indices, in order |
| `McmIndices.StripSamplingMeasurements` | pennylane/devices/qubit/simulate.py:263-265 | popping the sampling indices from the back leaves exactly the analytic measurements, in their original order |
| `Gathering.CountOnes` | pennylane/devices/qubit/simulate.py:353-360 | the number of shots that recorded a one is at most the number of shots |
| `Gathering.Update` | pennylane/devices/qubit/simulate.py:355-356 | `Counter.update` adds every entry of a shot's dictionary to the count of its key |
| `Gathering.CounterCounts` | pennylane/devices/qubit/simulate.py:353-360 | after the update loop, `counter[sha]` is the number of shots that recorded a one for `sha` |
| `Gathering.Outcomes` | pennylane/devices/qubit/simulate.py:362-366 | `[dct[sha] for dct in mcm_meas]` raises `KeyError(sha)` exactly when some shot lacks `sha`; otherwise it lists every shot's outcome in order |
| `Gathering.CountsMatchSamples` | pennylane/devices/qubit/simulate.py:358-363 | when every shot recorded `sha`, the counted ones equal the ones among the samples |
| `Gathering.BernoulliVariance` | pennylane/devices/qubit/simulate.py:364-366 | the variance of the 0/1 outcomes is `p * (1 - p)`, where `p` is the fraction of ones |
| `Gathering.SampleEntryMeaning` | pennylane/devices/qubit/simulate.py:357-366 | the error and success cases of each sample-like result. A missing `mv` raises AttributeError and an empty measurement value raises IndexError. Counts give `{0: N - k, 1: k}` with `k` the recorded ones. Samples give every shot's outcome in order. Variance gives `p * (1 - p)` |
| `Gathering.Fill` | pennylane/devices/qubit/simulate.py:344-366 | filling result slots keeps the number of slots |
| `Gathering.FillSucceeds` | pennylane/devices/qubit/simulate.py:345-366 | a filling pass succeeds exactly when every entry it reaches succeeds |
| `Gathering.FillFails` | pennylane/devices/qubit/simulate.py:345-351 | a filling pass raises the error of its first failing entry |
| `Gathering.AnalyticPassMeaning` | pennylane/devices/qubit/simulate.py:343-351 | the analytic pass fails exactly when some analytic measurement reached by `zip` is neither an expectation nor a probability. Otherwise it stores `sum / total_shots` at that measurement's index and leaves the other slots `None` |
| `Gathering.GatherMeaning` | pennylane/devices/qubit/simulate.py:341-371 | the gathered list has one slot per measurement. Analytic slots hold `Mean(sum / total_shots)`. Sample-like slots hold their `SampleEntry`. The gathering succeeds exactly when both passes do |
| `Gathering.GatherUnsupported` | pennylane/devices/qubit/simulate.py:345-351 | the first unsupported analytic measurement raises ValueError naming its class |
| `Gathering.GatherComplete` | pennylane/devices/qubit/simulate.py:344-366 | with one summed result per analytic measurement, no slot is left `None` |
| `Gathering.NormalizeAnalytic` | pennylane/devices/qubit/simulate.py:343-351 | the normalising loop computes the analytic pass |
| `Gathering.CountOutcomes` | pennylane/devices/qubit/simulate.py:353-356 | the `Counter` loop computes the counter of all shots |
| `Gathering.AnyCountsAt` | pennylane/devices/qubit/simulate.py:353 | a counts measurement at any index makes the `any(isinstance(m, CountsMP) ...)` test true, so the counter exists whenever a counts result reads it |
| `Gathering.GatherSampled` | pennylane/devices/qubit/simulate.py:357-366 | one iteration of the sample-like loop computes that measurement's `SampleEntry` |
| `Gathering.Gather` | pennylane/devices/qubit/simulate.py:341-371 | `gather_native_mid_circuit_measurements` computes exactly `GatherSpec`, whose meaning `GatherMeaning` states |
| `Simulation.NativeMcmRun` | pennylane/devices/qubit/simulate.py:304-315 | a circuit with shots raises ValueError("Invalid circuit.shots.total_shots value N; only None is supported."). Otherwise it returns the analytic results of the final state and the recorded outcomes, and fails exactly when `get_final_state` does |
| `Simulation.NativeMcmResults` | pennylane/devices/qubit/simulate.py:312-315 | the per-shot results are what `measure_final_state` returns for a circuit without shots: bare for one measurement, a tuple otherwise |
| `Simulation.SimulateNativeMcm` | pennylane/devices/qubit/simulate.py:279-315 | the method computes `NativeMcmRun` |
| `Simulation.TrialsShape` | pennylane/devices/qubit/simulate.py:266-271 | exactly `total_shots` shots run, each with one result per remaining measurement |
| `Simulation.TrialsStop` | pennylane/devices/qubit/simulate.py:266-269 | a failing shot ends the whole run with its exception |
| `Simulation.ZipAdd` | pennylane/devices/qubit/simulate.py:270 | the element-wise sum has the length of the shorter operand |
| `Simulation.AccumulateSums` | pennylane/devices/qubit/simulate.py:266-271 | the running sums are the column sums over all shots |
| `Simulation.ValidShotsTotal` | pennylane/devices/qubit/simulate.py:268 | a valid finite shot count totals at least one shot, so the loop runs `total_shots - 1` more times after the first shot |
| `Simulation.RepeatShots` | pennylane/devices/qubit/simulate.py:266-271 | the first shot, then `total_shots - 1` more, computes the summed results and the list of outcome dictionaries of `Trials`, or the first exception |
| `Simulation.Simulate` | pennylane/devices/qubit/simulate.py:258-276 | `simulate` computes `SimulateSpec` |
| `Simulation.NativeModeAverages` | pennylane/devices/qubit/simulate.py:258-272 | in native mode, each expectation value or probability is the column sum over the `total_shots` shots divided by `total_shots` |
| `Simulation.NativeModeCounts` | pennylane/devices/qubit/simulate.py:353-360 | in native mode, a counts result has zeros plus ones equal to `total_shots`, and ones equal to the shots that recorded a one |
| `Simulation.MeasuresFinalState` | pennylane/devices/qubit/simulate.py:273-276 | outside native mode, the result is `measure_final_state` of `get_final_state`'s state, with the shots postselection left; it fails exactly when `get_final_state` does |
| `LinearCombinations.OpsWires` | pennylane/ops/op_math/linear_combination.py:190-197 | the wires are exactly the union of the operators' wires |
| `LinearCombinations.Product` | pennylane/ops/op_math/linear_combination.py:362 | `prod(a, b, lazy=False)` is a product with as many factors as the two operands contribute (their own factors for a product, otherwise themselves), and it acts on exactly the union of the operands' wires |
| `LinearCombinations.KronLength` | pennylane/ops/op_math/linear_combination.py:357-363 | the product of two combinations has `len1 * len2` coefficients and as many operators |
| `LinearCombinations.KronTerms` | pennylane/ops/op_math/linear_combination.py:357-363 | for every `i < len1` and `j < len2`, term `i * len2 + j` of the product has coefficient `c1[i] * c2[j]` and operator `prod(ops1[i], ops2[j])` |
| `LinearCombinations.ScaledTwice` | pennylane/ops/op_math/linear_combination.py:408-413 | scaling by `a` after `b` is scaling by `a * b`, and scaling by 1 changes nothing |
| `LinearCombinations.ScaledAppend` | pennylane/ops/op_math/linear_combination.py:388-413 | scaling distributes over the coefficient concatenation of `+` |
| `LinearCombinations.MapOpIdentity` | pennylane/ops/op_math/linear_combination.py:503 | mapping wires with an empty map leaves an operator unchanged |
| `LinearCombinations.ObsDataMembers` | pennylane/ops/op_math/linear_combination.py:263-278 | an entry is in `_obs_data` exactly when some term produces it |
| `LinearCombinations.ObsDataOrderFree` | pennylane/ops/op_math/linear_combination.py:243-262 | `_obs_data` is order-independent: concatenating terms in either order gives the same set, the union of the parts |
| `LinearCombinations.Unflattened` | pennylane/ops/op_math/linear_combination.py:105-110 | `_unflatten` fails with the constructor's ValueError exactly when the leaves have different lengths |
| `LinearCombinations.LinearCombination.Wires` | pennylane/ops/op_math/linear_combination.py:190-197 | every operator's wires are among the combination's wires |
| `LinearCombinations.LinearCombination.constructor` | pennylane/ops/op_math/linear_combination.py:128-134 | the fields hold the given terms, and `grouping_indices` is None |
| `LinearCombinations.LinearCombination.New` | pennylane/ops/op_math/linear_combination.py:122-134 | ValueError exactly when the coefficient and operator counts differ; otherwise a fresh combination with those terms and no grouping |
| `LinearCombinations.LinearCombination.Flatten` | pennylane/ops/op_math/linear_combination.py:101-110 | `_unflatten(_flatten(H))` reproduces the coefficients, operators and `grouping_indices` of any valid `H` |
| `LinearCombinations.LinearCombination.Unflatten` | pennylane/ops/op_math/linear_combination.py:105-110 | a fresh combination with the leaves' terms and the stored grouping, or the constructor's ValueError |
| `LinearCombinations.LinearCombination.Add` | pennylane/ops/op_math/linear_combination.py:379-406 | `+ 0` returns self. `+ LC` concatenates coefficients and operators. `+ Operator` appends it with coefficient 1.0. Anything else is NotImplemented. Self is not modified |
| `LinearCombinations.LinearCombination.Mul` | pennylane/ops/op_math/linear_combination.py:408-417 | a scalar multiplies every coefficient and keeps the operators; a non-scalar is NotImplemented |
| `LinearCombinations.LinearCombination.MatMul` | pennylane/ops/op_math/linear_combination.py:345-377 | overlapping wires raise ValueError. Two combinations give the Kronecker coefficients and pairwise products. A depth-0 operator is multiplied onto every term. Other operators give the lazy product, and anything else is NotImplemented |
| `LinearCombinations.LinearCombination.MapWires` | pennylane/ops/op_math/linear_combination.py:493-506 | a fresh combination with the same coefficients and number of terms, every operator's wires relabelled, and `grouping_indices` carried over |
| `LinearCombinations.LinearCombination.ObsData` | pennylane/ops/op_math/linear_combination.py:263-278 | the loop builds exactly the set of per-term entries |
| `NoiseModels.Accessors` | pennylane/noise/noise_model.py:62-74 | `model` and `metadata` return exactly what the constructor was given |
| `NoiseModels.Without` | pennylane/noise/noise_model.py:88 | the dict comprehension keeps exactly the keys outside the collection, with unchanged values |
| `NoiseModels.Sub` | pennylane/noise/noise_model.py:85-94 | subtracting a key collection removes those keys and keeps the metadata. Subtracting a noise model removes its model keys and its metadata keys. No value changes |
| `NoiseModels.SubIsSubmap` | pennylane/noise/noise_model.py:85-94 | the result of `-` is a sub-map of the original, in model and metadata |
| `NoiseModels.SubSelf` | pennylane/noise/noise_model.py:91-94 | a model minus itself is empty, metadata included |
| `NoiseModels.SubKeys` | pennylane/noise/noise_model.py:86-89 | a subtracted key is gone; any other key keeps its entry |
| `NoiseModels.AddAsWritten` | pennylane/noise/noise_model.py:76-80 | `__add__` as written always raises TypeError, since it adds two dictionaries |
| `NoiseModels.DocumentedUsageFails` | pennylane/noise/noise_model.py:50-51 | the documented `noise_model += {c3: n3}` raises instead of giving the extended model |
| `NoiseModels.Add` | pennylane/noise/noise_model.py:76-80 | the intended union: its keys are the union of both models' keys, and a plain dictionary keeps the metadata |
| `NoiseModels.AddEntries` | pennylane/noise/noise_model.py:76-80 | added entries are present, and original entries not overridden are kept |
| `NoiseModels.AddThenSub` | pennylane/noise/noise_model.py:76-94 | adding a dictionary and then subtracting its keys gives the original entries it did not override |
| `NoiseModels.RaddAsWritten` | pennylane/noise/noise_model.py:82-83 | `__radd__` as written delegates to the `__add__` as written, so it always raises the same `TypeError` |
| `NoiseModels.Radd` | pennylane/noise/noise_model.py:82-83 | `__radd__(d)` with the intended `__add__` is the intended `__add__(d)`: the right-biased union |

## Left out

- Numerics are not modelled: gate application, the initial state, the norm, the `allclose(norm, 0)` snap, the division by the norm, `measure` and `measure_with_samples`. They are fields of `Device`, and probability vectors are abstracted to one real per measurement.
- `apply_operation`, `create_initial_state`, `measure`, `measure_with_samples` and `map_to_standard_wires` are not part of this model. `map_to_standard_wires` is taken as the identity, so the shots that postselection writes back to the circuit are the shots `measure_final_state` sees.
- Randomness is modelled as an explicit generator state threaded through every draw. The source instead uses a global or seeded NumPy generator, and JAX keys (`prng_key`) are not modelled.
- Not modelled:
  - the `qml.math.is_abstract` tracing branches;
  - `INTERFACE_TO_LIKE`;
  - the debugger;
  - the `state_cache` side channel of `simulate`;
  - `_FlexShots`, which is modelled as an ordinary finite shot list that may hold zeros.
- `Simulation.NativeMcmRun`: the source zips a single bare result as if it were a sequence (simulate.py:192-193 and 270). The model keeps every per-shot result as a list, and `NativeMcmResults` records how that list relates to what `measure_final_state` returns.
- `Gathering.Gather`: it requires at least one shot and a positive total. A stand-alone call with no shots is not covered. In that case the analytic sums would be divided by a zero `total_shots` (simulate.py:347), counts would be `{0: 0, 1: 0}`, samples an empty array, and the variance NaN.
- The final `else` of the sample-like loop (simulate.py:367-370) cannot be reached, because every sample-like index is a counts, sample or variance. It is not modelled.
- `LinearCombination` is only partly modelled:
  - `simplify`, `_simplify_coeffs_ops` and `pauli_rep` are not modelled, and neither are `compare`, `eigvals`, `diagonalizing_gates`, `label`, `queue` and `__sub__`. They rest on operator algebra and numeric linear algebra outside this model.
  - Operators carry no parameters, so `data` is the coefficient list, and `_unflatten`'s assignment of `data` is not modelled separately.
  - `LinearCombinations.LinearCombination.MapWires`: `map_wires` passes `self.data` as the coefficients (linear_combination.py:504). `data` lists each coefficient followed by its operator's parameters. For an operator with parameters (a `Hermitian` matrix, say) the length check at linear_combination.py:122 would then raise, or the coefficients would be shifted. The model has parameter-free operators and so gives the coefficients back unchanged. This case is not modelled.
  - `convert_to_opmath` is taken as the identity.
  - The grouping heuristics are not modelled; the `grouping_indices` setter is a plain assignment.
- `LinearCombinations.ObsDataOf`: an operator's wires enter the term data as a set, so the order of wires within one operator is not recorded.
- `NoiseModels`: the noise functions and conditions are opaque type parameters. Only key membership is used, as in the source.

## Findings

| source | as written | input that shows it | evidently intended | confidence | as-written member | corrected member |
|---|---|---|---|---|---|---|
| pennylane/noise/noise_model.py:76-80 | `__add__` applies `+` to two dictionaries (`self._model + data`, and `self._metadata + data._metadata`). Python raises `TypeError: unsupported operand type(s) for +: 'dict' and 'dict'` | the class's own documented usage: `NoiseModel({c0: n0}, t1=0.04)` followed by `noise_model += {c3: n3}` (noise_model.py:50-51) | the union of the dictionaries (right operand winning), as the documented result shows, with the metadata kept for a plain dictionary and merged for a noise model | high; not executed | `NoiseModels.AddAsWritten`, `NoiseModels.DocumentedUsageFails`, `NoiseModels.RaddAsWritten` | `NoiseModels.Add`, with `NoiseModels.AddEntries` and `NoiseModels.AddThenSub`; `NoiseModels.Radd` |
