# ButtonDebounce in Dafny

ButtonDebounce is a small embedded library. It turns one raw boolean sample per tick into two things:

- a debounced level (`down()` / `up()`);
- two one-shot events (`pressed()` / `released()`), each true only on the tick the level changes.

The library has three alternative engines behind the same class interface. A build links exactly one of them.

- **Integrator**: a saturating accumulator in `0 .. integ_max`. It counts up on down samples and down on up samples. It presses at `integ_on` and releases at `integ_off`.
- **Consecutive**: an 8-bit shift register of raw samples, newest in bit 0. The level changes once the newest `min(consec_n, 8)` samples all show the other level.
- **Edge-Gated**: the Consecutive register and acceptance rule, plus chatter detection. It counts edges in the register. Level changes are suppressed while the contact is bouncing. A timeout recentres the register so the engine cannot lock up.

## Structure of the model

There is one module per source file:

| module | file | models |
|---|---|---|
| `Debounce` | `debounce.dfy` | the shared header: `Config` and its defaults, the outputs, the engine state records, `popcount8`, `edgeCount8` |
| `Integrator` | `integrator.dfy` | the Integrator engine |
| `Consecutive` | `consecutive.dfy` | the Consecutive engine, with the register helper `update_hist` and the acceptance rule |
| `EdgeGated` | `edge_gated.dfy` | the Edge-Gated engine, reusing the `Consecutive` register helpers and acceptance rule |

Each engine is modelled twice, and the two are tied together:

- **As functions.** A `State` datatype records the outputs and the engine's own state. `ResetState` is what `reset` sets. `Step` is one call of `update`. `Run` feeds a sequence of samples, oldest first. The properties are lemmas about these functions.
- **As a class.** `ButtonDebounce` has the fields the source updates in place (`state`, `pressed`, `released`, and `acc` or `hist`/`unstable`/`bounceK`). Its constructor and its `Reset`, `Update`, `UpdateActiveLow`, `UpdateActiveHigh` methods follow the source statement by statement. The `Pressed`, `Released`, `Down`, `Up` and `History` accessors are functions that read the fields.

Each method's postcondition says that the object's state `View()` is the specification function applied to the old state. So every lemma about `Step` and `Run` holds for the object as well.

Integers:

- The source's 8-bit values are `uint8`, an integer newtype in `0 .. 255`. Every saturating `++` and `--` is written out with its guard.
- The sample register and the bit helpers use `bv8`, so that `<<` drops the old bit 7 exactly as the `(uint8_t)` cast does.

Configuration values are not validated, as in the source. Degenerate values give the literal behaviour of the arithmetic. For example, `consecN == 0` gives an empty mask, so the level flips on every tick.

Differences between the library's own descriptions and its code. The model follows the code:

- The Integrator file's header gives the debounce time as `integ_max` ticks. The code presses on the `integ_on`-th down sample from an empty accumulator (`Integrator.FirstPressOnTickOn`).
- With `consec_n == 0`, both mask tests hold on every tick. Because of the `if … else if`, the level still changes only once per tick: it toggles, with exactly one event (`Consecutive.EmptyMaskTogglesEveryTick`).
- The Consecutive file's header gives the debounce time as `consec_n` ticks. From `consec_n` 8 on, the mask is `0xFF` and only the newest 8 samples count, so the press comes on tick 8 for every `consec_n >= 8` (`Consecutive.HoldDownPressesOnTickN`).
- `edgeCount8` compares bit 7 with the 0 the right shift brings in. So a steady "down" register `0xFF` counts one edge, and `0xAA` counts 8 edges where `0x55` counts 7 (`Debounce.EdgeCount8Extremes`). The model keeps this.

## Model

| member | source | states |
|---|---|---|
| `Debounce.DefaultConfigShape` | src/buttonDebounce.h:49-62 | the defaults (6, 4, 2, 3, 4, 16, 1) put a hysteresis band inside the accumulator range: `integOff < integOn <= integMax`; `consecN` is in `1 .. 8`; the edge threshold is reachable; `bounceConfirm` is below the timeout |
| `Debounce.EventsMatchMeansOneShot` | src/buttonDebounce.h:30-34 | outputs whose events report the level change have at most one event; there is an event exactly when the level changed; a press ends down and a release ends up |
| `Debounce.Config` | src/buttonDebounce.h:49-62 | the seven 8-bit tuning fields, none of them validated |
| `Debounce.DefaultConfig` | src/buttonDebounce.h:51-61 | the default member initialisers: `integ_max` 6, `integ_on` 4, `integ_off` 2, `consec_n` 3, `edge_threshold` 4, `unstable_timeout` 16, `bounce_confirm` 1 |
| `Debounce.Outputs` | src/buttonDebounce.h:90-92 | the fields `state_`, `pressed_` and `released_`: the debounced level and the two one-shot events |
| `Debounce.IntegratorState` | src/buttonDebounce.h:95-97 | the Integrator's 8-bit accumulator `acc` |
| `Debounce.HistoryState` | src/buttonDebounce.h:99-103 | the 8-bit register `hist`, newest sample in bit 0, and the two Edge-Gated counters `unstable` and `bounce_k` |
| `Debounce.Popcount8` | src/buttonDebounce.h:113-118 | the pairwise-then-nibble partial sums, each truncated to 8 bits, equal the sum of the eight single bits |
| `Debounce.Popcount8Counts` | src/buttonDebounce.h:113-118 | `popcount8(x)` equals the number of set bits of `x`, so it is at most 8 |
| `Debounce.EdgesAreChangedBits` | src/buttonDebounce.h:120-124 | the set bits of `h ^ (h >> 1)` at positions below `k` are exactly the positions where a sample differs from the next older one (bit 7 is compared with 0) |
| `Debounce.EdgeCount8` | src/buttonDebounce.h:120-125 | `edgeCount8(h)`, the set bits of `h ^ (h >> 1)`, equals the number of edges of `h`, so it is at most 8 |
| `Debounce.EdgeCount8Extremes` | src/buttonDebounce.h:120-125 | `edgeCount8(0x00) == 0`; `edgeCount8(0xFF) == 1`, because bit 7 is compared with 0; `0x55` gives 7 and `0xAA` gives 8 |
| `Integrator.ResetState` | src/buttonDebounceIntegrator.cpp:27-34 | reset sets the requested level, clears both events, and sets the accumulator to `integMax` when down and 0 when up, inside the range |
| `Integrator.Integrate` | src/buttonDebounceIntegrator.cpp:41-46 | a down sample adds one below `integMax` and otherwise leaves the count; an up sample subtracts one above 0 and otherwise leaves it; an in-range count stays in range |
| `Integrator.Threshold` | src/buttonDebounceIntegrator.cpp:48-55 | from up, the level goes down exactly when `acc >= integOn`; from down, it goes up exactly when `acc <= integOff`; the events report exactly that change |
| `Integrator.Step` | src/buttonDebounceIntegrator.cpp:36-56 | one update keeps the accumulator in `0 .. integMax`; both events start cleared and report exactly the level change; a press needs `acc >= integOn` and a release needs `acc <= integOff` |
| `Integrator.ButtonDebounce.constructor` | src/buttonDebounceIntegrator.cpp:22-25 | stores the configuration (by default the library defaults) and leaves the state of `reset(false)` |
| `Integrator.ButtonDebounce.Reset` | src/buttonDebounceIntegrator.cpp:27-34 | the object's state becomes `ResetState(cfg, startDown)`; the default argument is up |
| `Integrator.ButtonDebounce.Update` | src/buttonDebounceIntegrator.cpp:36-56 | the in-place update leaves exactly the state `Step` gives, for any accumulator value, and keeps the range invariant when it held before |
| `Integrator.ButtonDebounce.UpdateActiveLow` | src/buttonDebounce.h:70 | behaves exactly like `update(!pinLevelHigh)` |
| `Integrator.ButtonDebounce.UpdateActiveHigh` | src/buttonDebounce.h:71 | behaves exactly like `update(pinLevelHigh)` |
| `Integrator.ButtonDebounce.Pressed` | src/buttonDebounce.h:74 | returns the press event of the last update and changes nothing |
| `Integrator.ButtonDebounce.Released` | src/buttonDebounce.h:75 | returns the release event of the last update and changes nothing |
| `Integrator.ButtonDebounce.Down` | src/buttonDebounce.h:78 | returns the debounced level and changes nothing |
| `Integrator.ButtonDebounce.Up` | src/buttonDebounce.h:79 | is always the negation of `Down()` |
| `Integrator.ButtonDebounce.History` | src/buttonDebounceIntegrator.cpp:58-61 | always 0: this engine keeps no history |
| `Integrator.RunStaysInRange` | src/buttonDebounceIntegrator.cpp:41-46 | no input sequence moves the accumulator out of `0 .. integMax` |
| `Integrator.RunAppend` | src/buttonDebounceIntegrator.cpp:36-56 | feeding `a + b` is feeding `a`, then `b` |
| `Integrator.HoldDownFromEmpty` | src/buttonDebounceIntegrator.cpp:42-55 | with `integOff < integOn <= integMax`, holding down from an empty accumulator at level up: after `k <= integMax` ticks the count is `k`; the level is down exactly from tick `integOn` on; the one press is on tick `integOn`; there is no release |
| `Integrator.HoldUpFromFull` | src/buttonDebounceIntegrator.cpp:44-55 | with `integOff < integOn <= integMax`, holding up from a full accumulator at level down: after `k` ticks the count is `integMax - k`; the one release is on tick `integMax - integOff`; there is no press |
| `Integrator.HoldDownToFirstPress` | src/buttonDebounceIntegrator.cpp:42-55 | for any `integOff` and `1 <= integOn <= integMax`, holding down from an empty accumulator at level up: after `k <= integOn` ticks the count is `k`, the level stays up before tick `integOn`, the one press is on that tick, and there is no release |
| `Integrator.FirstPressOnTickOn` | src/buttonDebounceIntegrator.cpp:42-51 | from `reset(false)` with `1 <= integOn <= integMax`, holding down gives its first press on exactly the `integOn`-th update, with no event before it |
| `Integrator.ResetDownThenDownIsQuiet` | src/buttonDebounceIntegrator.cpp:33-55 | with `integOff < integMax`, `reset(true)` then `update(true)` gives no event, keeps the level down and leaves the state unchanged |
| `Integrator.PressReleaseCycle` | src/buttonDebounceIntegrator.cpp:42-55 | with `integOff < integOn <= integMax`, `integMax` down samples and then `k` up samples from `reset(false)` release exactly on up tick `integMax - integOff`; with `k == integMax` they return to the accumulator of `reset(false)` |
| `Integrator.DownHoldsThroughGap` | src/buttonDebounceIntegrator.cpp:44-55 | once down with `acc` above `integOff`, any `acc - integOff - 1` further samples keep the level down |
| `Integrator.UpHoldsThroughGap` | src/buttonDebounceIntegrator.cpp:42-51 | once up with `acc` below `integOn`, any `integOn - acc - 1` further samples keep the level up |
| `Consecutive.ShiftIn` | src/buttonDebounceConsecutive.cpp:28-31 | `update_hist`: the new sample becomes bit 0, each old bit `k` moves to bit `k + 1`, and the old bit 7 is discarded |
| `Consecutive.ShiftInArithmetic` | src/buttonDebounceConsecutive.cpp:30 | as a number, the new register is `(old * 2 + sample) mod 256` |
| `Consecutive.Fill` | src/buttonDebounceConsecutive.cpp:44 | `state_ ? 0xFF : 0x00`: every bit of the register holds the given level |
| `Consecutive.Mask` | src/buttonDebounceConsecutive.cpp:57-58 | the mask has exactly the bits below `consecN` set, and all eight from 8 on |
| `Consecutive.MaskValue` | src/buttonDebounceConsecutive.cpp:57-58 | the mask is `2^consecN - 1` below 8 and `0xFF` from 8 on |
| `Consecutive.MaskedAllSet` | src/buttonDebounceConsecutive.cpp:60 | `hist & mask == mask` holds exactly when the newest `min(consecN, 8)` samples are all down |
| `Consecutive.MaskedAllClear` | src/buttonDebounceConsecutive.cpp:61 | `hist & mask == 0` holds exactly when the newest `min(consecN, 8)` samples are all up |
| `Consecutive.Accept` | src/buttonDebounceConsecutive.cpp:60-69 | from up, the level goes down exactly when the newest samples are all down; from down, it goes up exactly when they are all up; the events report exactly that change |
| `Consecutive.ResetState` | src/buttonDebounceConsecutive.cpp:38-47 | reset sets the requested level, clears the events, fills every register bit with that level, and zeroes `unstable` and `bounceK` |
| `Consecutive.Step` | src/buttonDebounceConsecutive.cpp:49-70 | one update shifts the sample into the register and leaves the counters alone; a press comes exactly when the level was up and the newest masked samples are all down; a release comes exactly when it was down and they are all up |
| `Consecutive.ButtonDebounce.constructor` | src/buttonDebounceConsecutive.cpp:33-36 | stores the configuration and leaves the state of `reset(false)` |
| `Consecutive.ButtonDebounce.Reset` | src/buttonDebounceConsecutive.cpp:38-47 | the object's state becomes `ResetState(startDown)` |
| `Consecutive.ButtonDebounce.Update` | src/buttonDebounceConsecutive.cpp:49-70 | the in-place update leaves exactly the state `Step` gives; its events report exactly the level change |
| `Consecutive.ButtonDebounce.UpdateActiveLow` | src/buttonDebounce.h:70 | behaves exactly like `update(!pinLevelHigh)` |
| `Consecutive.ButtonDebounce.UpdateActiveHigh` | src/buttonDebounce.h:71 | behaves exactly like `update(pinLevelHigh)` |
| `Consecutive.ButtonDebounce.Pressed` | src/buttonDebounce.h:74 | returns the press event of the last update |
| `Consecutive.ButtonDebounce.Released` | src/buttonDebounce.h:75 | returns the release event of the last update |
| `Consecutive.ButtonDebounce.Down` | src/buttonDebounce.h:78 | returns the debounced level |
| `Consecutive.ButtonDebounce.Up` | src/buttonDebounce.h:79 | is always the negation of `Down()` |
| `Consecutive.ButtonDebounce.History` | src/buttonDebounceConsecutive.cpp:77-80 | returns the current register |
| `Consecutive.HistoryHoldsNewestSamples` | src/buttonDebounceConsecutive.cpp:28-31 | after a run, bit `i` of the register is the `i`-th newest sample; when fewer than eight samples were fed, it is the starting register's bits moved up |
| `Consecutive.PressAndReleaseFollowNewestSamples` | src/buttonDebounceConsecutive.cpp:54-69 | once enough samples were fed, an update presses exactly when the level was up and the last `min(consecN, 8)` samples are all down, and releases exactly when it was down and they are all up |
| `Consecutive.HoldDownPressesOnTickN` | src/buttonDebounceConsecutive.cpp:54-65 | from `reset(false)` with `consecN >= 1`, holding down has no event for `min(consecN, 8) - 1` ticks and presses on tick `min(consecN, 8)`, so never later than tick 8 |
| `Consecutive.ThreeDownSamplesPressOnTheThird` | src/buttonDebounceConsecutive.cpp:54-65 | with the defaults, from `reset(false)`, the samples 1, 1, 1 give `pressed()` false, false, true |
| `Consecutive.ChangedSampleIsQuiet` | src/buttonDebounceConsecutive.cpp:60-69 | with `consecN >= 2`, a sample that differs from the previous one never changes the level |
| `Consecutive.FullRegisterTickIsQuiet` | src/buttonDebounceConsecutive.cpp:60-69 | with `consecN >= 2`, from a register full of the current level, no single sample changes the level |
| `Consecutive.AlternatingNeverFires` | src/buttonDebounceConsecutive.cpp:60-69 | with `consecN >= 2`, strictly alternating samples after either reset never give an event and never change the level |
| `Consecutive.ResetDownThenDownIsQuiet` | src/buttonDebounceConsecutive.cpp:44-69 | with `consecN >= 1`, `reset(true)` then a down sample leaves the state of `reset(true)` unchanged |
| `Consecutive.EmptyMaskTogglesEveryTick` | src/buttonDebounceConsecutive.cpp:58-69 | with `consecN == 0`, every update flips the level, with a press when it was up and a release when it was down |
| `EdgeGated.BouncingNow` | src/buttonDebounceEdgeGated.cpp:58-59 | `edges >= edge_threshold` on the updated register holds exactly when the window has at least `edgeThreshold` edges |
| `EdgeGated.BounceAfter` | src/buttonDebounceEdgeGated.cpp:57-66 | the bouncing streak goes up by one, stopping at 255, when the window has at least `edgeThreshold` edges; otherwise it returns to 0 |
| `EdgeGated.UnstableAfter` | src/buttonDebounceEdgeGated.cpp:68-75 | the unstable count goes up by one, stopping at 255, while the streak has reached `bounceConfirm`; otherwise it returns to 0 |
| `EdgeGated.Bouncing` | src/buttonDebounceEdgeGated.cpp:61-68 | `bounce_k >= bounce_confirm` on the updated streak: always true with `bounceConfirm` 0; otherwise true exactly when bouncing now and the streak with this tick reaches `bounceConfirm` |
| `EdgeGated.TimedOut` | src/buttonDebounceEdgeGated.cpp:70-78 | `unstable >= unstable_timeout` on the updated count: always true with `unstableTimeout` 0; otherwise true exactly when bouncing and the bouncing ticks in a row, this one included, reach `unstableTimeout` |
| `EdgeGated.Step` | src/buttonDebounceEdgeGated.cpp:50-101 | on timeout, the state is exactly `reset` to the current level: register recentred, counters zero, no event. Otherwise the register is shifted and the counters advanced. A gated tick keeps the level with no event. A non-bouncing tick gives the Consecutive outputs. The events always report the level change, and `unstable` stays below the timeout or is 0 |
| `EdgeGated.ButtonDebounce.constructor` | src/buttonDebounceEdgeGated.cpp:34-37 | stores the configuration and leaves the state of `reset(false)` |
| `EdgeGated.ButtonDebounce.Reset` | src/buttonDebounceEdgeGated.cpp:39-48 | the object's state becomes the Consecutive `ResetState(startDown)`: level, cleared events, full register, zero counters |
| `EdgeGated.ButtonDebounce.Update` | src/buttonDebounceEdgeGated.cpp:50-101 | the in-place update, with its early return on timeout, leaves exactly the state `Step` gives; its events report exactly the level change |
| `EdgeGated.ButtonDebounce.AcceptChange` | src/buttonDebounceEdgeGated.cpp:86-100 | the acceptance block under `!bouncing` leaves exactly the outputs of the Consecutive rule on the current register |
| `EdgeGated.ButtonDebounce.UpdateActiveLow` | src/buttonDebounce.h:70 | behaves exactly like `update(!pinLevelHigh)` |
| `EdgeGated.ButtonDebounce.UpdateActiveHigh` | src/buttonDebounce.h:71 | behaves exactly like `update(pinLevelHigh)` |
| `EdgeGated.ButtonDebounce.Pressed` | src/buttonDebounce.h:74 | returns the press event of the last update |
| `EdgeGated.ButtonDebounce.Released` | src/buttonDebounce.h:75 | returns the release event of the last update |
| `EdgeGated.ButtonDebounce.Down` | src/buttonDebounce.h:78 | returns the debounced level |
| `EdgeGated.ButtonDebounce.Up` | src/buttonDebounce.h:79 | is always the negation of `Down()` |
| `EdgeGated.ButtonDebounce.History` | src/buttonDebounceEdgeGated.cpp:103-106 | returns the current register |
| `EdgeGated.GatedRunIsShort` | src/buttonDebounceEdgeGated.cpp:70-86 | over a run of gated ticks, `unstable` rises by one per tick and stays below `unstableTimeout`, and the level does not change; so fewer than `unstableTimeout` ticks in a row can be gated |
| `EdgeGated.ResetDownThenDownIsQuiet` | src/buttonDebounceEdgeGated.cpp:45-100 | with `consecN >= 1`, `reset(true)` then a down sample gives no event, stays down and keeps the register full |
| `EdgeGated.QuietAsConsecutive` | src/buttonDebounceEdgeGated.cpp:78-100 | a tick on which the Consecutive rule keeps the level keeps it here too, with the register either recentred or shifted |
| `EdgeGated.AlternatingNeverFires` | src/buttonDebounceEdgeGated.cpp:57-100 | with `consecN >= 2`, strictly alternating samples after either reset never give an event and never change the level, whether gated, recentring or accepting |
| `EdgeGated.AlternatingTick` | src/buttonDebounceEdgeGated.cpp:50-101 | one more alternating sample is one more update |
| `EdgeGated.DefaultChatterFirstTicks` | src/buttonDebounceEdgeGated.cpp:57-75 | with the defaults, the first three chattering samples after `reset(false)` give registers 0x01, 0x02, 0x05 and no bouncing |
| `EdgeGated.DefaultChatterWarmUp` | src/buttonDebounceEdgeGated.cpp:57-86 | on ticks 4 to 7 the window has at least four edges, so both counters run up to 4 while the level stays up |
| `EdgeGated.DefaultChatterCounts` | src/buttonDebounceEdgeGated.cpp:57-86 | from tick 7 to tick 18 the register alternates 0x55 / 0xAA, both counters equal the tick number minus 3, and nothing changes the level |
| `EdgeGated.DefaultChatterRecentresOnTick19` | src/buttonDebounceEdgeGated.cpp:78-83 | with the defaults, continuous chatter after `reset(false)` reaches `unstable == 15` on tick 18 and is recentred on tick 19 to exactly the state of `reset(false)` |

## Left out

- `ButtonDebounceVersion.h` holds only version macros, with no behaviour, so it is not part of this model.
- The `union` that shares storage between the engine states is not modelled. Each engine's class holds its own fields, and `Reset` reinitialises all of them.
- Link-time selection of one engine is not modelled. The three engines are three separate modules with three classes.
- The commented-out alternate acceptance rule in the Consecutive engine is dead code and is not modelled.
- Reading the pin (`digitalRead`) and the real-time tick interval are the caller's concern. Samples enter as parameters, one call per tick.
- The code has no concurrency, and none is modelled.
- `update_hist` updates the register in place through its address (`uint8_t*`). The model writes it as the value function `ShiftIn`, and the engines assign the register from it.
- `EdgeGated.ButtonDebounce.AcceptChange`: the acceptance block of the Edge-Gated `update` is a separate method here. It is called only where the source runs that block.
