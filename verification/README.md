# Buffer-oriented rate adaptation, modelled in Dafny

This project models `R2ABufferOriented`, the adaptive-bitrate (ABR) controller of a
DASH-style streaming client. For every segment the client requests, the controller
reads how many segments the playback buffer holds, compares that with a target of 20
segments and with the reading at the previous decision, turns its throughput estimate
into a desired bitrate, and snaps that rate onto one of the quality levels listed in the
manifest. The manifest round trip gives the throughput estimate its first value. Segment
responses advance a counter that decides when the controller leaves its start-up phases.

Arithmetic is exact: rates are Dafny `real`s and `factor ** n` is `Power.Pow`. The
modules follow the controller's responsibilities:

- `Outcome`: the two failures (`DivisionByZero`, `EmptyQualityList`) and a `Result` type.
- `Power`: `Pow` and its monotonicity lemmas.
- `QualityMapper`: the scan that picks a quality level (`get_closest_quality`).
- `BufferTracker`: the buffer size in segments from the monitor's samples (`get_buffer_size`).
- `ThroughputEstimator`: bits over round-trip time.
- `QualityPolicy`: the tuning parameters and their constructed values, the phase
  classifier in its fixed priority order, and `Adjust`. `Adjust` returns both the
  desired rate and the estimate kept for the next decision.
- `R2ABufferOriented`: the controller state, `Decide`, the four event hooks and `Run`.
  `Run` applies a whole session of events in order.
- `Scenarios`: worked decisions with the constructed parameters.

A few behaviours of the code are easy to misread, and the model keeps them as written:

- A round trip of exactly zero fails (Python raises `ZeroDivisionError`). A negative round
  trip is not rejected and gives a negative estimate (`ThroughputEstimator.SampleSign`).
  `RunKeepsEstimateNonNegative` shows that a clock that never goes backwards rules this out.
- Of the two responses, only the manifest response takes a throughput sample; segment
  responses only advance the counter. Between samples, only the drain, below-target and
  above-target branches of a decision change the estimate.
- At exactly the target the estimate is kept only when the buffer is not draining. When the
  buffer fell by more than 4 segments, the drain branch fires even at the target
  (`Scenarios.AtTargetStillDrains`).
- The mapper returns the LAST listed level that fits, or the first listed level when none
  fits. This is "the largest level not above the rate" only when the list is ascending.
  The code does not check that order, so the lemmas that need it assume it.

## Model

| member | source | states |
|---|---|---|
| QualityMapper.SelectedAfter | r2a/r2abufferoriented.py:139-144 | After the scan has examined n levels it holds a listed level: the last of those n that fits, or the first level if none of them fits |
| QualityMapper.ClosestQuality | r2a/r2abufferoriented.py:139-144 | The selected level is always in the list; it is the last listed level not above the desired rate, or the first level when every level is above it |
| QualityMapper.ClosestIsLargestFitting | r2a/r2abufferoriented.py:139-144 | On an ascending list the selection is at least every level that fits (the largest level not above the rate), and when none fits it is the lowest level |
| QualityMapper.ClosestMonotone | r2a/r2abufferoriented.py:139-144 | On an ascending list a higher desired rate never selects a lower level |
| BufferTracker.BufferSize | r2a/r2abufferoriented.py:133-137 | With no samples the buffer size is 0; otherwise it is one less than the newest sample's level, leaving out the segment in playback (history independence is BufferSizeReadsNewest) |
| BufferTracker.BufferSizeReadsNewest | r2a/r2abufferoriented.py:133-137 | With no samples the buffer size is 0; otherwise it is the newest sample's level less one, whatever older samples precede it |
| ThroughputEstimator.ThroughputSample | r2a/r2abufferoriented.py:59-61 | The sample fails exactly when the round trip is zero; otherwise the sample times the round trip gives back the bits received |
| ThroughputEstimator.SampleSign | r2a/r2abufferoriented.py:59-61 | A positive round trip gives a non-negative estimate; a negative round trip with a non-empty payload gives a negative one |
| QualityPolicy.DefaultIsValid | r2a/r2abufferoriented.py:40-44 | The constructed parameters (target 20, drop 4, 0.75, 0.95, 1.02) lie in the ranges the policy lemmas assume: 0 < decrease < 1 < increase, multiplier > 0, drop >= 0 |
| QualityPolicy.Classify | r2a/r2abufferoriented.py:84-111 | Cold start exactly when nothing was received, ramp-up exactly while fewer segments than the target arrived, drain exactly when settled and the buffer is at or above target but fell by more than the threshold; the remaining phases are characterised in PhaseConditions |
| QualityPolicy.PhaseConditions | r2a/r2abufferoriented.py:84-116 | Each branch is taken exactly when its own condition holds, that condition being the branch test plus the failure of every earlier test |
| QualityPolicy.Adjust | r2a/r2abufferoriented.py:77-116 | Outside cold start the desired rate and the new estimate coincide; in cold start, ramp-up and at-target the estimate is left unchanged |
| QualityPolicy.ColdStartIgnoresBuffer | r2a/r2abufferoriented.py:84-86 | With no segment received the desired rate is the estimate times the initial multiplier for any buffer readings, and the estimate is kept |
| QualityPolicy.RampUpTracksEstimate | r2a/r2abufferoriented.py:88-89 | While fewer segments than the buffer target have arrived, the desired rate is the estimate and the estimate is kept |
| QualityPolicy.DrainPrecedence | r2a/r2abufferoriented.py:91-96 | Once settled, a buffer at or above target that fell by more than the drop threshold takes the drain branch before the at-target and above-target branches. The rate and the estimate become the estimate times the decrease factor raised to the drop, with a positive exponent, so a positive estimate strictly falls |
| QualityPolicy.BelowTargetDecreases | r2a/r2abufferoriented.py:98-103 | Below target without drain, the rate and the estimate become the estimate times the decrease factor raised to the shortfall. The exponent is positive, and a non-negative estimate never grows or turns negative |
| QualityPolicy.AtTargetKeepsEstimate | r2a/r2abufferoriented.py:105-108 | At the target without drain, the desired rate is the estimate and the estimate is unchanged |
| QualityPolicy.AboveTargetFormula | r2a/r2abufferoriented.py:110-116 | Above target without drain, the rate and the estimate become the larger of the first level and the estimate times the increase factor raised to the surplus |
| QualityPolicy.OneAboveTargetScalesOnce | r2a/r2abufferoriented.py:110-116 | One segment above target, the increase factor is applied exactly once (exponent 1), floored at the first level |
| QualityPolicy.AboveTargetIncreases | r2a/r2abufferoriented.py:110-116 | Above target without drain the new estimate is at least the first quality level and at least the old, non-negative estimate |
| QualityPolicy.EstimateDirection | r2a/r2abufferoriented.py:84-116 | With valid parameters a non-negative estimate stays non-negative. It falls only in the drain and below-target branches and rises only in the above-target branch |
| QualityPolicy.BelowTargetGraduated | r2a/r2abufferoriented.py:98-103 | Below target, a lower buffer never aims at a higher rate: the cut grows with the distance from target |
| QualityPolicy.AboveTargetGraduated | r2a/r2abufferoriented.py:110-116 | Above target without drain, a fuller buffer never aims at a lower rate |
| R2ABufferOriented.Decide | r2a/r2abufferoriented.py:72-124 | The desired rate and the new estimate are the policy's for the current counter, estimate, buffer readings and first level. The chosen level is in the list and is the mapper's choice for that rate. The previous buffer size becomes the size just read in every branch. Only the estimate and that reading change, and outside cold start the estimate is the desired rate |
| R2ABufferOriented.OnXmlRequest | r2a/r2abufferoriented.py:46-47 | Records the clock reading as the request time and changes nothing else; ManifestRoundTrip relates it to the response |
| R2ABufferOriented.OnXmlResponse | r2a/r2abufferoriented.py:53-61 | Stores the quality list and fails exactly on a zero round trip. Otherwise the new estimate times the round trip equals the bits received, and the counter and previous buffer size are untouched |
| R2ABufferOriented.ManifestRoundTrip | r2a/r2abufferoriented.py:46-61 | A manifest requested and answered strictly later always succeeds and yields a non-negative estimate accounting for exactly the bits received |
| R2ABufferOriented.OnSegmentRequest | r2a/r2abufferoriented.py:72-124 | Fails exactly when no quality level is known. Otherwise it is the decision for the buffer size read from the monitor: the selected level is the mapper's choice for the policy's rate, the previous buffer size becomes that reading, and only the estimate and that reading change |
| R2ABufferOriented.OnSegmentResponse | r2a/r2abufferoriented.py:129-131 | The received counter goes up by exactly one and nothing else changes |
| R2ABufferOriented.RunCountsResponses | r2a/r2abufferoriented.py:129-131 | Over a whole session the counter equals its start value plus the number of segment responses |
| R2ABufferOriented.RunKeepsEstimateNonNegative | r2a/r2abufferoriented.py:53-131 | Over any session whose clock readings never go backwards, the throughput estimate is never negative |
| R2ABufferOriented.SessionFromInitial | r2a/r2abufferoriented.py:27-131 | `Initial` holds the constructed state of lines 27-38 (no levels, request time 0, counter 0, estimate 0, previous buffer 0). A session starting from it, with clock readings that never go backwards, never drives the estimate negative |
| Scenarios.ColdStartScenario | r2a/r2abufferoriented.py:84-86 | Levels 500, 1000, 1500 and estimate 1200 on the first segment give a desired rate of 900 and the level 500 |
| Scenarios.AboveTargetScenario | r2a/r2abufferoriented.py:110-116 | Buffer 25 (previously 22) with estimate 1000 gives 1000 * 1.02^5 = 1104.0808032 and the level 1000 |
| Scenarios.AtTargetStillDrains | r2a/r2abufferoriented.py:91-108 | At the target after a drop of five segments the estimate 1000 falls to 773.7809375 instead of being kept |
| Scenarios.ZeroRoundTripScenario | r2a/r2abufferoriented.py:59-61 | A manifest answered at the instant it was requested fails with a division by zero |

## Left out

- The `print` diagnostics and the `send_up`/`send_down` forwarding are not modelled. They are output and message plumbing, with no bearing on any decision.
- `time.perf_counter()` is not modelled. Clock readings are inputs of `OnXmlRequest`/`OnXmlResponse`.
- `parse_mpd` and `get_qi` are not part of this model. The parsed quality list arrives as a parameter of `OnXmlResponse`.
- The `Whiteboard` singleton is not modelled. The buffer monitor's samples are passed to `OnSegmentRequest` as a sequence.
- `msg.add_quality_id` is not modelled. The chosen level is returned as `Decision.selected`.
- `initialize` and `finalization` are left out because they are empty.
- IEEE 754 rounding of Python floats is not modelled. All rates are exact reals.
- The parameters are generalised to a `Params` value; `Default` holds the constructed values.
- R2ABufferOriented.OnSegmentRequest: an empty quality list is reported as an error with no new state. The source raises `IndexError` part-way through, after it may already have changed the estimate and the previous buffer size. The session ends there in both cases.
- R2ABufferOriented.OnXmlResponse: a zero round trip is reported as an error with no new state. The source stores the quality list before raising `ZeroDivisionError`.
- R2ABufferOriented.Decide: requires a non-empty quality list. `OnSegmentRequest` handles the empty case.
- QualityPolicy.Adjust and R2ABufferOriented.Decide: require a non-negative drop threshold, which keeps the exponent of the drain branch a natural number. The constructed value is 4. With a negative threshold Python would raise the factor to a non-positive power, and that case is not modelled.
