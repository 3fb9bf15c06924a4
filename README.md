# TfEncodingAnalyzer: a Dafny model

This project models the min/max encoding analyzer of the DlQuantization library. The analyzer calibrates fixed-point quantization.

- `updateStats` folds each calibration tensor's minimum and maximum into a running pair and sets a "statistics updated" flag.
- `computeEncoding` turns the running pair into an encoding range. The range is widened to contain zero. Its maximum is then raised until the range is at least `MIN_RANGE` wide. The range goes to the scale/offset derivation, together with the bit-width and the three symmetric-mode flags.
- `getStatsHistogram` is not supported by this analyzer.

The two instantiations, for `float` and for `double`, share one logic. The model has one version of it, over `real`.

Structure:

- `reduction.dfy`, module `Reduction`: the reduction that the analyzer delegates to (`GetMin`/`GetMax`). It is modelled as `SeqMin`/`SeqMax` over a non-empty sequence. The module also proves facts about appending and reordering batches.
- `tf_encoding_analyzer.dfy`, module `Quantization`: the shared types. These are the bit-width `uint8`, the `TfEncoding` record, `ComputationMode`, the derivation's function type and `MIN_RANGE`.
- `tf_encoding_analyzer.dfy`, module `EncodingAnalyzer`: the accumulated statistics and the class `TfEncodingAnalyzer`.
  - The accumulated statistics are two `Bound`s. A `Bound` is a real or one of the two infinities.
  - `Merge` is one update. `AdjustRange` is the range adjustment.
  - The class has the fields `accumulatedStats` and `statsUpdated`, plus a ghost field `observed` that holds every element seen so far.
  - `Valid()` ties the fields to `observed`: the pair is the minimum and maximum of `observed`, and the flag is set exactly when something was observed.

The initial values `{+infinity, -infinity}` and `MIN_RANGE` are defined in the analyzer's header and in the quantization headers. Those headers are not part of this model. The constructor uses the two infinities as `PosInf` and `NegInf`. The value of `MIN_RANGE` is not visible in the modelled file. The model declares it as an unspecified positive real, so every property below holds for any positive floor.

How the bit-width reaches the result:

- Line 91 assigns `bw` to a local `TfEncoding` that is never returned.
- Line 93 returns the result of `getComputedEncodings(...)` directly.
- So `ComputeEncoding` returns exactly what the derivation returns, and `bw` reaches the result only as an argument of that call.

## Model

| member | source | states |
|---|---|---|
| `Reduction.SeqMin` | ModelOptimizations/DlQuantization/src/TfEncodingAnalyzer.cpp:65 | The current minimum is an element of the tensor and is at most every element. |
| `Reduction.SeqMax` | ModelOptimizations/DlQuantization/src/TfEncodingAnalyzer.cpp:66 | The current maximum is an element of the tensor and is at least every element. |
| `Reduction.SeqMinAppend` | ModelOptimizations/DlQuantization/src/TfEncodingAnalyzer.cpp:69 | The minimum over two batches together is the smaller of the two minima, so merging one minimum at a time loses nothing. |
| `Reduction.SeqMaxAppend` | ModelOptimizations/DlQuantization/src/TfEncodingAnalyzer.cpp:70 | The maximum over two batches together is the larger of the two maxima. |
| `Reduction.SeqMinPermutation` | ModelOptimizations/DlQuantization/src/TfEncodingAnalyzer.cpp:69 | Two streams with the same multiset of elements have the same minimum. |
| `Reduction.SeqMaxPermutation` | ModelOptimizations/DlQuantization/src/TfEncodingAnalyzer.cpp:70 | Two streams with the same multiset of elements have the same maximum. |
| `EncodingAnalyzer.BoundMin` | ModelOptimizations/DlQuantization/src/TfEncodingAnalyzer.cpp:69 | `std::min` over doubles that include the sentinel infinities: the result is one of the two arguments and is below both. |
| `EncodingAnalyzer.BoundMax` | ModelOptimizations/DlQuantization/src/TfEncodingAnalyzer.cpp:70 | `std::max` over such doubles: the result is one of the two arguments and is above both. |
| `EncodingAnalyzer.Merge` | ModelOptimizations/DlQuantization/src/TfEncodingAnalyzer.cpp:68-70 | One update never raises the minimum and never lowers the maximum. The new minimum is at most the tensor's minimum, and the new maximum at least the tensor's maximum. Each new value is either the old value or the tensor's. |
| `EncodingAnalyzer.MergeStatsOf` | ModelOptimizations/DlQuantization/src/TfEncodingAnalyzer.cpp:68-70 | Merging a tensor into the statistics of a stream gives exactly the minimum and maximum of the stream extended by that tensor. This includes the first update, where the sentinels give way to the tensor's values. |
| `EncodingAnalyzer.StatsOfPermutation` | ModelOptimizations/DlQuantization/src/TfEncodingAnalyzer.cpp:68-70 | The accumulated pair depends only on the multiset of observed elements. Any batch order or partition gives the same pair. |
| `EncodingAnalyzer.StatsOfOrdered` | ModelOptimizations/DlQuantization/src/TfEncodingAnalyzer.cpp:65-70 | After at least one element, both bounds are finite and the minimum is at most the maximum. |
| `EncodingAnalyzer.AdjustRange` | ModelOptimizations/DlQuantization/src/TfEncodingAnalyzer.cpp:83-90 | The range contains zero and the accumulated range, and is at least `MIN_RANGE` wide. Its minimum is 0 or the accumulated minimum. Its maximum is 0, the accumulated maximum, or lo + `MIN_RANGE`. |
| `EncodingAnalyzer.AdjustRangeNudge` | ModelOptimizations/DlQuantization/src/TfEncodingAnalyzer.cpp:87-90 | The nudge moves only the maximum. It keeps the zero-clamped maximum when the range is already wide enough, and otherwise sets the maximum to exactly lo + `MIN_RANGE`. |
| `EncodingAnalyzer.AdjustRangeTightest` | ModelOptimizations/DlQuantization/src/TfEncodingAnalyzer.cpp:84-90 | Every range that contains zero and the accumulated range starts at or below the adjusted minimum. Such a range with that same minimum and a width of at least `MIN_RANGE` ends at or above the adjusted maximum. |
| `EncodingAnalyzer.AdjustRangeInitial` | ModelOptimizations/DlQuantization/src/TfEncodingAnalyzer.cpp:84-90 | With no update, the sentinels clamp to zero and the range is exactly [0, `MIN_RANGE`]. |
| `EncodingAnalyzer.AdjustRangeAllZero` | ModelOptimizations/DlQuantization/src/TfEncodingAnalyzer.cpp:87-90 | An all-zero stream gives exactly [0, `MIN_RANGE`], never [0, 0]. |
| `EncodingAnalyzer.TfEncodingAnalyzer.UpdateStats` | ModelOptimizations/DlQuantization/src/TfEncodingAnalyzer.cpp:59-71 | The flag is set, the tensor joins the observed elements, and the pair is the `Merge` of the old pair with the tensor's extremes. The invariant "the pair is the minimum and maximum of everything observed" is kept, and afterwards minimum ≤ maximum. |
| `EncodingAnalyzer.TfEncodingAnalyzer.ComputeEncoding` | ModelOptimizations/DlQuantization/src/TfEncodingAnalyzer.cpp:73-94 | Strict and unsigned symmetric must not both be set in symmetric mode. The state is only read. The result is the derivation applied to exactly (bw, adjusted min, adjusted max, the three flags), and the adjusted range covers every observed element. |
| `EncodingAnalyzer.TfEncodingAnalyzer.GetStatsHistogram` | ModelOptimizations/DlQuantization/src/TfEncodingAnalyzer.cpp:52-57 | The request always fails with an unsupported-operation error. It never returns a histogram, not even an empty one. |

## Left out

- `GetMin`/`GetMax` are modelled only by their results, the minimum and the maximum. Their bodies and the CPU/GPU dispatch are external. `ComputationMode` is accepted by `UpdateStats` and ignored.
- `UpdateStats` requires a non-empty tensor. What the reduction returns for an empty buffer is up to the collaborator, so the source's setting of the flag on an empty update is not modelled.
- The scale/offset derivation (`getComputedEncodings`) is outside this model. It is a parameter of `ComputeEncoding`, a total function of the six arguments.
- Floating point: the rounding of the `(double)` casts, NaN in `std::min`/`std::max`, and infinite tensor elements are not modelled. Elements are reals. The only infinities are the two initial sentinels.
- The `assert` in `computeEncoding` becomes a precondition. In a build with assertions disabled the source would go on with the forbidden flag combination; the model does not cover that.
- `getStatsHistogram` aborts through `assert(0)` in the source. Here that abort is modelled as an `UnsupportedOperation` failure. This is the behaviour of a build with assertions enabled. With `NDEBUG` the function has no `return` and runs off the end of a non-void function, which is undefined behaviour and is not modelled.
- The dead store to `encoding.bw` (line 91) has no effect on the result and is not modelled.
- Concurrent calls to `updateStats` on one analyzer are not modelled. The class has no locking, and serialising access is the caller's job.
