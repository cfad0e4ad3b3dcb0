# JSN-SR04 Gen3 sampler, modelled in Dafny

This project models the sampling engine of the JSN-SR04_Gen3_RK library. The library drives a
JSN-SR04T ultrasonic distance sensor through the nRF52 I2S peripheral. The peripheral's SDOUT
line sends the trigger pulse as one all-ones 16-bit word. Its SDIN line samples the echo line
at one bit per microsecond. The echo pulse width is the number of set bits in the received
words, and the distance is that width in seconds times 170 m/s.

The project has four modules:

- `OneBits` (`onebits.dfy`): the population count of a 16-bit word. It holds the
  `countOneBits` loop as a method and the summing loop of `sampleState` as a method. It also
  proves that the count agrees with a positional reference definition, and proves the count's
  range and complement laws.
- `Results` (`results.dfy`): `DistanceResult` with its four statuses, the default result, and
  the pulse-to-metres conversion with its inverse.
- `SamplerModel` (`samplermodel.dfy`): the engine's whole state as a datatype `Engine`, and
  one pure function per operation. These are `setup`, `sampleOnce`, `setResult`,
  `idleState`, `startState`, `sampleState`, `loop` and `_dataHandler`, plus the with…
  setters as events. `Step` and `Run` replay a trace of events. The lemmas state what holds
  after one handler and over whole traces: a preserved invariant, a complete measurement
  cycle, the repeating timeout, and the idle flag that is never restored.
- `Sampler` (`sampler.dfy`): the C++ class as a Dafny class `JsnSr04Gen3`. It has the same
  fields: `rxBuffer` and `txBuffer` are nullable arrays, and `stateHandler` names the current
  handler. Every method is proved to change the abstract state `Abs()` exactly as the
  matching `SamplerModel` function does. So every `SamplerModel` lemma holds of the class.

Three ghost logs record the engine's outputs:

- `history`: every result `setResult` recorded;
- `delivered`: every value passed to the callback;
- `i2s`: every call made into the nrfx I2S driver (init, start with its word count, stop,
  uninit).

The model's inputs:

- `millis()` is a `now` parameter of each tick.
- The nrfx driver's result codes are two booleans: `initOk` and `startOk`.
- The peripheral's writes into the receive buffer are a `Receive`/`Dma` event.
- The interrupt that reports "next buffers needed" is a `DataHandler`/`BufferEvent` event,
  run between two `loop()` calls.

## Behaviour of the code worth knowing

- `isIdle` is set to true only by the field initialiser. `sampleOnce()` and `idleState()`
  clear it, and nothing sets it again. After the first cycle has started, `setup()` and
  `sampleOnce()` therefore always fail, while periodic sampling keeps running. This is proved
  by `IdleFlagNeverRestored`, `LockedAfterFirstCycle` and `PeriodicRestarts`.
- A failed `nrfx_i2s_init` or `nrfx_i2s_start` records ERROR but leaves the handler on
  `startState`, so the next tick tries again. The engine does not return to idle.
- After the safety timeout, `sampleState` records ERROR but leaves the handler on
  `sampleState`. Every later tick, while fewer than two buffers have been requested and the
  clock is still past the timeout, uninitialises the peripheral and records, and delivers,
  ERROR again. This is proved by `TimeoutRepeats`. Two late buffer notifications make the
  next tick record SUCCESS and return to idle.
- `setup()` recomputes `numSamples` on every successful call, but allocates only the
  buffers that are still null. A later call with a larger range leaves `numSamples` larger
  than the buffers. The model keeps the buffer lengths apart from `numSamples`. Where a
  handler would then index past the end of a buffer, `Step` returns `None` (undefined
  behaviour).
- `sampleOnce()` checks only `isIdle`, and `idleState()` checks only the period. A cycle
  started before a successful `setup()` reaches the buffer preparation of `startState` with
  null buffers after a successful init; the model treats that tick as undefined too, and
  `Step` returns `None` for it.
- Any range is stored, a negative one included. `setup()` adds `floor(maxLengthM * 48) * 4`
  to the overhead, so with the default overhead of 152 a range down to -38/48 m still gives
  a non-negative count (-0.5 m gives 56). Below that the count is negative and its
  conversion to `size_t` is undefined; there `Step` returns `None` for setup.
- `setResult()` is public. An application that calls it directly can record any status,
  BUSY included, and `getLastResult()` then returns it. The engine itself records only
  SUCCESS and ERROR.

## Model

| member | source | states |
|---|---|---|
| OneBits.CountOneBits | src/JSN-SR04_Gen3_RK.cpp:232-244 | the result is the population count of the word (the 0xffff shortcut included), equals the sum of its 16 bits, and lies in 0..16 |
| OneBits.PopCountIsBitSum | src/JSN-SR04_Gen3_RK.cpp:236-243 | the shift-and-test count agrees with the positional bit sum for every n-bit value |
| OneBits.PopCountComplement | src/JSN-SR04_Gen3_RK.cpp:232-244 | complementing an n-bit value turns a count of k into n - k |
| OneBits.PopCountRange | src/JSN-SR04_Gen3_RK.cpp:232-244 | an n-bit value has at most n set bits, and all-ones has exactly n |
| OneBits.WordPopCount | src/JSN-SR04_Gen3_RK.cpp:233-235 | every 16-bit word has at most 16 set bits, so the 0xffff fast path returns the true count |
| OneBits.PopCountExamples | src/JSN-SR04_Gen3_RK.cpp:232-244 | 0x0000, 0x0001, 0xAAAA and 0xffff count 0, 1, 8 and 16 |
| OneBits.SumOneBits | src/JSN-SR04_Gen3_RK.cpp:217-220 | the loop total is the set-bit count of the first numSamples words, at most 16 per word |
| OneBits.PopSumBound | src/JSN-SR04_Gen3_RK.cpp:217-220 | n words hold at most 16 * n set bits |
| Results.DistanceM | src/JSN-SR04_Gen3_RK.cpp:222 | distance times 10^6 equals the pulse in microseconds times 170, and is not negative for a non-negative pulse |
| Results.PulseUs | src/JSN-SR04_Gen3_RK.cpp:222 | the conversion is invertible: the pulse is recovered from the distance |
| Results.DistanceMonotone | src/JSN-SR04_Gen3_RK.cpp:222 | longer pulses give longer distances; 1000 us is 0.17 m |
| SamplerModel.Elapsed | src/JSN-SR04_Gen3_RK.cpp:116 | `millis() - sampleTime` in unsigned 32-bit arithmetic: adding it back to the start gives now modulo 2^32, and it is the plain difference when the clock has not wrapped |
| SamplerModel.Zeros | src/JSN-SR04_Gen3_RK.cpp:66-71 | a newly allocated buffer has numSamples words, all zero |
| SamplerModel.Initial | src/JSN-SR04_Gen3_RK.h:66-83 | a fresh engine has no valid pins and no buffers, is idle on the idle handler, has recorded nothing and holds the default ERROR result |
| SamplerModel.SampleCount | src/JSN-SR04_Gen3_RK.cpp:59-63 | the count is congruent to the overhead modulo 4, and at least the overhead for a non-negative range; it is defined only where the double is not negative |
| SamplerModel.Setup | src/JSN-SR04_Gen3_RK.cpp:46-84 | succeeds exactly when the pins are valid and the engine is idle, and a failure changes nothing; the full contract is SamplerModel.SetupEffects |
| SamplerModel.SetupEffects | src/JSN-SR04_Gen3_RK.cpp:46-84 | setup succeeds exactly when all four pins are valid and the engine is idle; a failure changes nothing; numSamples is overhead + 4 * floor(48 * maxLengthM), a multiple of 4 when the overhead is; existing buffers are kept, missing ones are allocated with numSamples words; nothing else changes |
| SamplerModel.InitialSetupFails | src/JSN-SR04_Gen3_RK.cpp:47-49 | a fresh engine has invalid pins, so setup fails without effect |
| SamplerModel.DefaultSizing | src/JSN-SR04_Gen3_RK.cpp:59-63 | the defaults (2.0 m, overhead 152) give 536 samples |
| SamplerModel.NegativeRangeSizing | src/JSN-SR04_Gen3_RK.cpp:59-63 | a stored range of -0.5 m still sets up, with 56 samples |
| SamplerModel.SizingDefinedRange | src/JSN-SR04_Gen3_RK.cpp:59-63 | with overhead 152 the count is non-negative exactly when 48 * maxLengthM >= -38 |
| SamplerModel.SetupIdempotent | src/JSN-SR04_Gen3_RK.cpp:59-71 | a second successful setup with the same configuration changes nothing more |
| SamplerModel.SampleOnce | src/JSN-SR04_Gen3_RK.cpp:86-97 | succeeds exactly when idle; on success the handler becomes startState and isIdle is cleared; otherwise nothing changes |
| SamplerModel.SetResult | src/JSN-SR04_Gen3_RK.cpp:104-111 | the last result becomes (status, distance) and is appended to the history, and to the callback deliveries exactly when a callback is set; nothing else changes |
| SamplerModel.IdleStep | src/JSN-SR04_Gen3_RK.cpp:114-121 | a cycle starts (handler startState, isIdle cleared) exactly when a period is set and has elapsed, modulo 2^32; otherwise nothing changes |
| SamplerModel.StartStep | src/JSN-SR04_Gen3_RK.cpp:123-180 | moves to sampleState exactly when init and start both succeed, keeps the handler otherwise, and never touches the configuration, numSamples or isIdle; the full contract is SamplerModel.StartStepEffects |
| SamplerModel.Launched | src/JSN-SR04_Gen3_RK.cpp:161-179 | after a successful init, the handler moves to sampleState exactly when the start succeeds and is kept otherwise; configuration, numSamples and isIdle are kept |
| SamplerModel.Armed | src/JSN-SR04_Gen3_RK.cpp:161-171 | the prepared buffers still hold numSamples words each, and the configuration, handler and history are kept |
| SamplerModel.StartStepEffects | src/JSN-SR04_Gen3_RK.cpp:123-180 | init is always attempted. After a successful init: the counter is 0, the first numSamples rx words are 0, tx is 0xffff followed by zeros, the rest is untouched, and numSamples / 2 words are started. Full success moves to sampleState and stamps the time. An init failure and a start failure each record ERROR through setResult (one history entry, one delivery when a callback is set) and keep both the handler and sampleTime |
| SamplerModel.PulseWidthUs | src/JSN-SR04_Gen3_RK.cpp:217-220 | the pulse width is at most 16 us per sample |
| SamplerModel.SampleStep | src/JSN-SR04_Gen3_RK.cpp:182-229 | keeps the configuration, numSamples, isIdle and the buffer counter; the full contract is SamplerModel.SampleStepEffects |
| SamplerModel.SampleStepEffects | src/JSN-SR04_Gen3_RK.cpp:182-229 | waits without effect while under two buffers and before the timeout. On timeout: uninitialise, record ERROR, keep the handler. With two or more buffers: record SUCCESS with the converted set-bit count (between 0 and the distance of 16 us per sample) and return to idle. isIdle and the counter are untouched |
| SamplerModel.Loop | src/JSN-SR04_Gen3_RK.cpp:99-102 | keeps the configuration and numSamples whichever handler runs; the full contract is SamplerModel.LoopEffects |
| SamplerModel.LoopEffects | src/JSN-SR04_Gen3_RK.cpp:99-102 | a tick only lowers the buffer counter, clears isIdle only when the idle handler starts a cycle, and leaves the configuration and numSamples alone |
| SamplerModel.DataHandler | src/JSN-SR04_Gen3_RK.cpp:28-35 | a next-buffers-needed status bumps the counter and, from 2 on, stops the transfer; any other status changes nothing |
| SamplerModel.Receive | src/JSN-SR04_Gen3_RK.cpp:171 | the received words land at the head of rx, its length and everything else unchanged |
| SamplerModel.InitialInv | src/JSN-SR04_Gen3_RK.h:66-83 | the field initialisers satisfy the engine invariant |
| SamplerModel.LoopInv | src/JSN-SR04_Gen3_RK.cpp:99-229 | every tick keeps the invariant (a non-idle handler implies !isIdle, the sample state has its buffers, the last result is the latest recorded) and records only SUCCESS or ERROR |
| SamplerModel.StepInv | src/JSN-SR04_Gen3_RK.cpp:28-229 | every defined event (tick, interrupt, DMA write, setup, sampleOnce, setResult, setter) keeps the invariant; only an application call of setResult() can record a status other than SUCCESS or ERROR |
| SamplerModel.RunInv | src/JSN-SR04_Gen3_RK.cpp:28-229 | every defined trace keeps the invariant, and keeps the history to SUCCESS and ERROR unless the application records another status |
| SamplerModel.StoredResults | src/JSN-SR04_Gen3_RK.h:55 | on every trace from a fresh engine, getLastResult() is the latest recorded result (default ERROR before any); unless the application calls setResult() with another status, it is an engine-recorded SUCCESS or ERROR, never TOO_MANY_RETRIES or BUSY |
| SamplerModel.ForeignStatusStored | src/JSN-SR04_Gen3_RK.h:57 | an application call of setResult() with any status, BUSY included, becomes the latest result |
| SamplerModel.StepKeepsBusy | src/JSN-SR04_Gen3_RK.cpp:86-121 | no single event sets isIdle back to true |
| SamplerModel.IdleFlagNeverRestored | src/JSN-SR04_Gen3_RK.cpp:86-121 | once isIdle is false it stays false on every trace |
| SamplerModel.LockedAfterFirstCycle | src/JSN-SR04_Gen3_RK.cpp:46-97 | after the first cycle started, setup() and sampleOnce() fail without effect on every later state |
| SamplerModel.PeriodicRestarts | src/JSN-SR04_Gen3_RK.cpp:114-121 | the idle handler starts a new cycle when the period has elapsed, whatever isIdle says |
| SamplerModel.TimeoutRepeats | src/JSN-SR04_Gen3_RK.cpp:185-200 | in the sample state with under two buffers, every tick past the timeout uninitialises the peripheral and records (and delivers) one more ERROR, and the handler stays put |
| SamplerModel.OneShotCycle | src/JSN-SR04_Gen3_RK.cpp:86-229 | sampleOnce, a start tick, the DMA data, two buffer notifications and a final tick produce exactly one SUCCESS of DistanceM(set bits of the data), delivered once, back on the idle handler, with driver calls init, start(n/2), stop, uninit |
| Sampler.JsnSr04Gen3.constructor | src/JSN-SR04_Gen3_RK.h:66-83 | the field initialisers: invalid pins, 2.0 m, no callback, no buffers, idle, ERROR result, overhead 152, timeout 30 ms, idle handler |
| Sampler.JsnSr04Gen3.WithTrigPin | src/JSN-SR04_Gen3_RK.h:37 | sets the trigger pin only (its modifies frame is that field alone, so the buffer references stay put) and returns the same object |
| Sampler.JsnSr04Gen3.WithEchoPin | src/JSN-SR04_Gen3_RK.h:38 | sets the echo pin only (its modifies frame is that field alone, so the buffer references stay put) and returns the same object |
| Sampler.JsnSr04Gen3.WithUnusedPins | src/JSN-SR04_Gen3_RK.h:39 | sets the two clock pins only (its modifies frame is that field alone, so the buffer references stay put) and returns the same object |
| Sampler.JsnSr04Gen3.WithMaxLengthMeters | src/JSN-SR04_Gen3_RK.h:41 | sets the range only (its modifies frame is that field alone), any value including a negative one, and returns the same object |
| Sampler.JsnSr04Gen3.WithCallback | src/JSN-SR04_Gen3_RK.h:43 | registers or clears the callback only (its modifies frame is that field alone, so the buffer references stay put) and returns the same object |
| Sampler.JsnSr04Gen3.WithSamplePeriodic | src/JSN-SR04_Gen3_RK.h:45 | stores the period count truncated to 32 bits, modifies only that field, and returns the same object |
| Sampler.JsnSr04Gen3.WithSamplePeriodicMs | src/JSN-SR04_Gen3_RK.h:46 | stores the period only (its modifies frame is that field alone, so the buffer references stay put) and returns the same object |
| Sampler.JsnSr04Gen3.GetLastResult | src/JSN-SR04_Gen3_RK.h:55 | in every reachable state, returns the latest recorded result or the default before any; when only the engine recorded results, its status is SUCCESS or ERROR |
| Sampler.JsnSr04Gen3.Setup | src/JSN-SR04_Gen3_RK.cpp:46-84 | changes the state as SamplerModel.Setup does, keeps existing arrays and allocates fresh ones; it requires only that a count setup actually computes is not negative |
| Sampler.JsnSr04Gen3.SampleOnce | src/JSN-SR04_Gen3_RK.cpp:86-97 | changes the state as SamplerModel.SampleOnce does, modifying only the handler and isIdle |
| Sampler.JsnSr04Gen3.Loop | src/JSN-SR04_Gen3_RK.cpp:99-102 | dispatches on stateHandler and changes the state as SamplerModel.Loop does |
| Sampler.JsnSr04Gen3.SetResult | src/JSN-SR04_Gen3_RK.cpp:104-111 | changes only the result, history and deliveries, as SamplerModel.SetResult does |
| Sampler.JsnSr04Gen3.IdleStateStep | src/JSN-SR04_Gen3_RK.cpp:114-121 | changes the state as SamplerModel.IdleStep does |
| Sampler.JsnSr04Gen3.StartStateStep | src/JSN-SR04_Gen3_RK.cpp:123-180 | changes the state, buffer contents included, as SamplerModel.StartStep does |
| Sampler.JsnSr04Gen3.Launch | src/JSN-SR04_Gen3_RK.cpp:161-179 | prepares the buffers and starts the transfer, then records the start failure or moves to the sample state, as SamplerModel.Launched does |
| Sampler.JsnSr04Gen3.Arm | src/JSN-SR04_Gen3_RK.cpp:161-171 | resets the counter, prepares both buffers in place and logs the start of numSamples / 2 words, as SamplerModel.Armed does |
| Sampler.PrepareBuffers | src/JSN-SR04_Gen3_RK.cpp:163-168 | clears the first n words of both arrays in place, writes the 0xffff trigger word into tx[0] and leaves the rest alone |
| Sampler.JsnSr04Gen3.SampleStateStep | src/JSN-SR04_Gen3_RK.cpp:182-229 | changes the state as SamplerModel.SampleStep does, summing the set bits of the rx array |
| Sampler.JsnSr04Gen3.DataHandler | src/JSN-SR04_Gen3_RK.cpp:28-35 | changes the counter and the driver log as SamplerModel.DataHandler does, and no other field |
| Sampler.MeasureOnce | src/JSN-SR04_Gen3_RK.cpp:86-229 | driving the object through sampleOnce(), a starting loop(), the captured words, two interrupts and an evaluating loop() makes getLastResult() SUCCESS with DistanceM of the captured words' set bits, recorded once, back on the idle handler |
| Sampler.JsnSr04Gen3.Receive | src/JSN-SR04_Gen3_RK.cpp:171 | writes the received words into the head of the rx array, as SamplerModel.Receive does |

## Left out

- The nrfx driver configuration (pin mapping, mode, format, clock ratio), `attachInterruptDirect` and the `_i2sBuffers` pointers: only the driver calls and their outcomes are modelled, as the `i2s` log and the `initOk` and `startOk` inputs.
- `pinMode` and `digitalWrite` in `setup()` and `sampleState()`: GPIO output is not part of the state.
- `Log.info` diagnostics and the lost nrfx error codes.
- Real concurrency between the I2S interrupt and `loop()`: `_dataHandler` runs as one indivisible event between ticks. The `volatile` counter is a field of the engine. The file-static variable is not shared between several engines.
- The destructor (`delete[]`) and a `new[]` that fails (the `!rxBuffer \|\| !txBuffer` check in `setup()`): there is no deallocation or allocation failure in Dafny.
- SamplerModel.Zeros: `new uint16_t[n]` leaves the words indeterminate; the model starts them at zero. `startState` clears the used prefix before anything reads it, so no result depends on this.
- Results.DistanceM: the distance is an exact real, not a rounded double.
- Sampler.JsnSr04Gen3.WithMaxLengthMeters: the range is an exact real, not a float; `m * 48.0` is exact in double for every float, so the floor agrees.
- Sampler.JsnSr04Gen3.Setup: a setup that reaches the sizing step with a negative count (a range below -38/48 m with the default overhead) is excluded by its precondition, and `Step` returns `None` for it, because converting a negative double to `size_t` is undefined in C++.
- `size_t` overflow of `numSamples` and `int` overflow of `pulseUs` and the counter are not modelled; both would need buffers or interrupt counts far beyond the device's memory.
- Sampler.JsnSr04Gen3.WithCallback: the `std::function` is a flag saying whether one is registered. The values it receives are the `delivered` log. A callback is assumed not to call back into the engine from inside `setResult()`; re-entrant callbacks are not modelled.
- `DistanceResult::cm()`, `mm()` and `inch()`: unit conversions that are not part of the engine. The getters `getStatus()` and `getDistanceM()` are the datatype's fields `status` and `distanceM`.
- The 1-simple demo program is not part of this model.
- PIN_INVALID comes from Device OS, which is not part of this model. Its value 0xff and `pin_t` as a 16-bit number follow that platform.
