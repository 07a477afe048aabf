# darc.lv2 compressor core in Dafny

This project models the audio core of x42 darc.lv2, a dynamic-range
compressor plugin for LV2 hosts. The model has two parts.

**The engine `Dyncomp`.** This is the compressor itself:
- cached setters for input gain, threshold, ratio, hold, attack and release;
- a reset;
- the gain report;
- the block processor. For each sample it:
  - ramps the input gain and the ratio toward their targets, to avoid clicks;
  - computes the key power of all channels;
  - low-passes it with the attack time;
  - passes it through a two-stage release cascade that a hold can freeze;
  - turns the result into a gain factor `g * (20 zr2)^(-r)`;
  - applies that factor to every channel.

  It also tracks the gain extrema for the report. After the block it stores
  the loop state back, and recovers from a non-finite filter state.

**The LV2 plugin `Darc` around it.**
- `instantiate` picks mono or stereo from the plugin URI and sets a 50 ms
  report period.
- `activate` resets the engine.
- `run`:
  1. forwards the control ports to the engine, or neutral settings when the
     plugin is bypassed;
  2. processes the block;
  3. advances a `uint32_t` sample counter. For every full period it reads
     the engine's gain report and clamps it for the output ports.

Files:
- `float.dfy` (module `Float`): single-precision values as `Fin(real)` or
  `NonFin`, with the NaN rules of `isless`, `fminf` and `fmaxf`.
  - The maths library (`exp10f`, `logf`, `expf`, `log10f`) is a parameter
    `Libm`.
  - `Lawful` holds only the laws the code relies on.
- `dyncomp_spec.dfy` (module `DyncompSpec`): the engine as functions on a
  `State` value that holds the fields the C struct updates.
  - The sample loop is `Next`/`Run` over a `Block` of loop constants and a
    `Carry` of loop variables.
  - The whole block is `AfterBlock`.
- `dyncomp.dfy` (module `Engine`): the engine as a class with the C struct's
  fields and imperative methods.
  - `Process` keeps the sample loop and writes into output arrays.
  - Each method is proved against the function in `DyncompSpec` that
    computes its new state.
- `dyncomp_proofs.dfy` (module `DyncompProofs`): what the engine promises,
  proved of those functions:
  - coefficient consistency and transparent caching;
  - no ramp overshoot;
  - the attack floor and the hold freeze;
  - window bounds;
  - non-finite recovery;
  - healthy gain factors;
  - bypass transparency.
- `darc.dfy` (module `Plugin`): the plugin instance as a class with its
  `run`, `activate` and `instantiate`, and the proofs about forwarding,
  bypass and the report cadence.

## Model

| member | source | states |
|---|---|---|
| Engine.Dyncomp.constructor | src/lv2.c:173-201 | `Dyncomp_init` sets rate, channel count and `norm_input = 1/n`. It leaves the engine consistent, in the `Init` state: unity gain, no compression, a -10 dB threshold, 10 ms attack and 30 ms release, freshly reset. |
| Engine.Dyncomp.Reset | src/lv2.c:87-97 | Clears the attack filter, both release stages, the level meter and the gain extrema, and requests a window restart. Nothing else changes. A consistent engine stays consistent. |
| Engine.Dyncomp.SetRatio | src/lv2.c:99-103 | Only `p_rat` changes, to half the ratio. A consistent engine stays consistent. |
| Engine.Dyncomp.SetInputGain | src/lv2.c:105-117 | Does nothing when the gain equals the cached `l_ign`. Otherwise stores it and sets `p_ign = 10^(0.05 g)`. A consistent engine stays consistent. |
| Engine.Dyncomp.SetThreshold | src/lv2.c:119-132 | Does nothing when the threshold equals the cached `l_thr`. Otherwise stores it and sets `p_thr = 0.5 * 10^(0.1 t)`. A consistent engine stays consistent. |
| Engine.Dyncomp.SetHold | src/lv2.c:134-138 | Only the hold flag changes. A consistent engine stays consistent. |
| Engine.Dyncomp.SetAttack | src/lv2.c:140-148 | Does nothing when the time equals `t_att`. Otherwise stores it and sets `w_att = 0.5 / (rate * a)`. A consistent engine stays consistent. |
| Engine.Dyncomp.SetRelease | src/lv2.c:150-158 | Does nothing when the time equals `t_rel`. Otherwise stores it and sets `w_rel = 3.5 / (rate * r)`. A consistent engine stays consistent. |
| Engine.Dyncomp.GetGain | src/lv2.c:160-171 | Reports the extrema in dB (nepers times 8.68589) and the level as `10 log10(2 rms)`. The level is -80 dB when `rms <= 1e-8`. The only state change is the window-restart request. A consistent engine stays consistent. |
| Engine.Dyncomp.KeyPower | src/lv2.c:260-265 | The inner channel loop computes the sum over the channels of the squared, gain-scaled sample (`SumSq`). |
| Engine.Dyncomp.ApplyGain | src/lv2.c:313-316 | Sample `j` of every output channel becomes factor times input. No other output sample changes. |
| Engine.Dyncomp.ReleaseStep | src/lv2.c:275-289 | The two release stages follow a rising `za1`, or decay unless held (`ReleaseFast`, `ReleaseSlow`). |
| Engine.Dyncomp.SampleStep | src/lv2.c:254-311 | One loop iteration yields the next loop state `Next` and the factor `g * expf(-r * logf(20 zr2))`. |
| Engine.Dyncomp.Begin | src/lv2.c:206-252 | The block set-up returns the loop constants `BlockOf` and the start state `StartOf`, which include the restart of the window and the snapping of gain and ratio. Its only state change is clearing the restart flag. |
| Engine.Dyncomp.Loop | src/lv2.c:254-317 | The sample loop ends in `Run(b, c0, inp, n)`. Every output sample before `n` is the input times that sample's factor, and the outputs beyond `n` are untouched. |
| Engine.Dyncomp.StoreBack | src/lv2.c:319-342 | The copy-back is `WriteBack`: a non-finite `za1` restarts the filters and the window; the level is zeroed when non-finite, capped at 10, and otherwise lifted by 1e-12. |
| Engine.Dyncomp.Process | src/lv2.c:203-343 | The new state is `AfterBlock` of the old one, consistency is kept, and every output sample is the input times the factor of the sample. The tail of each buffer is untouched. |
| DyncompSpec.SumSq | src/lv2.c:260-265 | The key power is finite exactly when every channel's sample is finite, and it is then non-negative. |
| DyncompSpec.StoreRms | src/lv2.c:336-342 | The stored level is at most 10 (plus the denormal offset). It is 0 for a non-finite level and positive for a non-negative finite one. |
| DyncompSpec.WriteBackConsistent | src/lv2.c:319-342 | The copy-back touches no cached setting or coefficient. |
| DyncompSpec.WriteBackClearsRestart | src/lv2.c:209-212 | The state stored after a block does not depend on the restart flag, which the set-up has already consumed. |
| DyncompProofs.InitConsistent | src/lv2.c:173-201 | The hard-coded initial `p_ign = 1` and `p_thr = 0.05` agree with `l_ign = 0` and `l_thr = -10`. The initial state is consistent and has the documented defaults. |
| DyncompProofs.InputGainKeepsConsistent | src/lv2.c:105-117 | Setting the input gain keeps `p_ign = 10^(0.05 l_ign)`. |
| DyncompProofs.ThresholdKeepsConsistent | src/lv2.c:119-132 | Setting the threshold keeps `p_thr = 0.5 * 10^(0.1 l_thr)`. |
| DyncompProofs.AttackKeepsConsistent | src/lv2.c:140-148 | Setting the attack time keeps `w_att = 0.5 / (rate t_att)`. |
| DyncompProofs.ReleaseKeepsConsistent | src/lv2.c:150-158 | Setting the release time keeps `w_rel = 3.5 / (rate t_rel)`. |
| DyncompProofs.PlainSettersKeepConsistent | src/lv2.c:87-138 | Ratio, hold and reset keep every cached pair consistent. |
| DyncompProofs.CachingIsTransparent | src/lv2.c:105-158 | On a consistent engine, each cached setter equals unconditional recomputation, so the early return is unobservable. |
| DyncompProofs.SettersIdempotent | src/lv2.c:87-158 | Repeating any setter, or the reset, with the same argument changes nothing. |
| DyncompProofs.ResetRestartsWindow | src/lv2.c:87-97 | After a reset the next block keeps its coefficients, and starts with silent filters and the window at (100, -100). |
| DyncompProofs.SnapIff | src/lv2.c:218-234 | The step `dg` (`dr`) is zero exactly when the gain (ratio) snaps to its target, and the start value is the target or the old value accordingly. |
| DyncompProofs.RampStaysBetween | src/lv2.c:256-258 | With `0 < w_lpf <= 1`, one de-click step moves toward the target without passing it. |
| DyncompProofs.RampsStayBetween | src/lv2.c:254-294 | Throughout a block the gain and the ratio stay between their start values and their targets: no overshoot. |
| DyncompProofs.SnapHolds | src/lv2.c:256-294 | A snapped gain or ratio stays constant for the whole block. |
| DyncompProofs.AttackStepFloor | src/lv2.c:272-273 | With `0 <= w_att <= 1`, any floor `lo <= p_thr` of `za1` survives one attack step. |
| DyncompProofs.AttackFloorPersists | src/lv2.c:272-273 | Once `za1 >= lo` for some `lo <= p_thr`, it stays so for the rest of the block, as the note at line 278 relies on. |
| DyncompProofs.HoldFreezes | src/lv2.c:275-289 | While the attack value stays below the hold level and not above either stage, both release stages stay frozen. |
| DyncompProofs.ReleaseWithoutHold | src/lv2.c:249-289 | With hold off and `za1 >= 0` nothing freezes. |
| DyncompProofs.HoldLevel | src/lv2.c:249 | The hold level is `2 p_thr` with hold on and 0 with hold off, and `p_thr > 0`. |
| DyncompProofs.WindowBounds | src/lv2.c:305-309 | The window only widens, and it contains every finite gain exponent of the block. |
| DyncompProofs.WindowAttained | src/lv2.c:305-309 | Each end of the window is its start value or the exponent of some sample. |
| DyncompProofs.BlockReportsWindow | src/lv2.c:203-343 | After a finite block the stored window contains every sample's exponent. It continues the previous window unless a restart was pending. |
| DyncompProofs.EmptyBlockInvertsWindow | src/lv2.c:206-216 | An empty block right after a restart stores `gmin = 100 > gmax = -100`, so the next report is an inverted window. |
| DyncompProofs.NextFinite | src/lv2.c:261-273 | The attack filter and the meter of a sample are finite exactly when they were and the sample is. |
| DyncompProofs.NonFiniteSticks | src/lv2.c:254-317 | After a block, `za1` and `rms` are finite exactly when they started finite and all input was finite. |
| DyncompProofs.RecoveryIff | src/lv2.c:319-342 | The recovery branch is taken exactly when the block met a non-finite sample. It then clears filters and meter, keeps the old extrema and requests a restart. |
| DyncompProofs.BlockTame | src/lv2.c:140-158 | At 160 Hz or more, with the attack at least half a sample and the release more than 3.5 samples, the loop runs with `Tame` coefficients: `0 < w_att <= 1`, `0 < w_lpf <= 1`, `0 < w_rel < 1`, `0 < w_rms <= 1`, `p_thr > 0`, a non-negative `norm_input` and a lawful maths library. |
| DyncompProofs.HealthyStep | src/lv2.c:272-289 | One finite sample lifts a non-negative `za1` above 0, and both release stages with it. |
| DyncompProofs.HealthyRun | src/lv2.c:254-289 | With finite input, `za1` stays finite and non-negative, and `zr2` becomes positive. |
| DyncompProofs.FactorsHealthy | src/lv2.c:305-311 | With tame coefficients, finite input and positive gains, every gain factor is finite and positive. |
| DyncompProofs.BypassTransparent | src/lv2.c:305-316 | With gain snapped at 1 and ratio at 0, every gain factor of a finite block is exactly 1. |
| Plugin.Ceil | src/lv2.c:400 | `ceilf`: the least integer not below `x`. |
| Plugin.ReportPeriod | src/lv2.c:400-401 | `sampletme = ceilf(rate * 0.05)` is positive and is the least integer not below 50 ms of samples. |
| Plugin.Clamp | src/lv2.c:458-460 | `fminf(hi, fmaxf(lo, x))` lies in `[lo, hi]`. It is `x` inside the range and the nearer bound outside it. |
| Plugin.ClampReport | src/lv2.c:458-460 | The ports' values lie in [-20, 40] dB for the gains and [-80, 10] dBFS for the level. Each value inside its range passes unchanged. |
| Plugin.SettledIsForward | src/lv2.c:431-446 | `run`'s sequence of cached setters on a consistent engine equals `Forward`, which installs every forwarded value with its recomputed coefficient, and it keeps the engine consistent. |
| Plugin.ForwardConsistent | src/lv2.c:431-446 | Forwarding leaves every cached pair consistent. |
| Plugin.ForwardSettles | src/lv2.c:431-446 | After forwarding, attack and release are the ports' values and the gain, ratio and filter state are untouched. Enabled, the ports' settings are installed; bypassed, `p_ign = 1`, `p_thr = 0.05`, `p_rat = 0` and no hold. |
| Plugin.BypassSettles | src/lv2.c:438-446 | Bypassed, once gain and ratio have settled at 1 and 0 and the times are sane, the next block starts snapped at unity gain and zero ratio with tame coefficients. |
| Plugin.NeutralBlock | src/lv2.c:218-252 | A consistent engine with `p_ign = 1` and `p_rat = 0`, settled gain and ratio, and sane times starts its block neutral. |
| Plugin.BypassPassesAudio | src/lv2.c:425-451 | Bypassed and settled, a block of finite audio is passed through with every output sample equal to its input. |
| Plugin.Darc.constructor | src/lv2.c:372-401 | The zero-filled instance with an initialised engine, `sampletme = samplecnt = ceilf(rate * 0.05)`, and zeroed reports. |
| Plugin.Darc.Activate | src/lv2.c:417-423 | Resets the engine and sets `samplecnt = sampletme`. The last reported values are kept. |
| Plugin.Darc.ForwardControls | src/lv2.c:430-446 | The bypass/enable branches and the attack/release setters take the engine to `Forward` of its old state, and keep it consistent. |
| Plugin.Darc.DrainReports | src/lv2.c:453-469 | The counter advances by `n` modulo 2^32 and loses whole periods until it is below one. If a period elapsed, the engine requests a restart and the fields hold the clamped report of the state before draining; otherwise nothing changes. |
| Plugin.Darc.ProcessBlock | src/lv2.c:430-451 | Forwarding followed by `Dyncomp_process`: the new engine state is `AfterBlock` of the forwarded state, and every output sample is the input times its factor. |
| Plugin.Darc.Run | src/lv2.c:425-474 | The whole `run`: outputs, new engine state, counter, reports and ports, as above. The three ports lie in their ranges. |
| Plugin.Drained | src/lv2.c:454-455 | Subtracting whole periods leaves less than one period. |
| Plugin.DrainedIsRemainder | src/lv2.c:453-455 | The drain loop leaves exactly the remainder of the count divided by the period. |
| Plugin.Instantiate | src/lv2.c:372-404 | There is no instance for any URI other than the mono and stereo ones. Otherwise the instance is fresh and valid, with 1 or 2 channels, the host's rate, an initialised engine and a full report period to wait. |

## Left out

- Single-precision rounding and overflow: arithmetic is on reals, and a
  value is either finite or `NonFin`. Infinity and NaN are not told apart.
  `NonFin` always behaves as NaN does: `isless` with it is false and
  `fminf`/`fmaxf` ignore it. `isfinite` and the state stored after a block
  agree with the C, because recovery discards the block's filter state.
- Within a block that meets an infinite sample, the model's output differs
  from the C's. In C, `isless(x, +inf)` is true, so both release stages
  follow `za1` to +inf. The gain exponent becomes -inf, the factor 0, and
  from the next sample on every stage is NaN, so the rest of that block's
  output is 0 or NaN. In the model the stages ignore `NonFin` and decay, so
  later factors stay finite.
- The accuracy of `exp10f`/`powf`, `logf`, `expf` and `log10f`: these are
  the abstract `Libm`. Only its laws are assumed: positive exponentials,
  `10^0 = 1`, `10^-1 = 0.1` and `e^0 = 1`.
- `connect_port`, `cleanup`, `extension_data`, `lv2_descriptor`, the inline
  display (`create_pattern`, `dpl_render`, `queue_draw`) and the GUI are
  not part of this model. The ports are the `Controls` argument and the
  return values of `Run`.
- Inputs are values (`seq<seq<Num>>`) read before the block and outputs are
  distinct arrays. Processing in place, where an output buffer is the same
  channel's input, gives the same result. Aliasing across channels is not
  modelled.
- `float` rounding of the sample rate: the rate is a real, and `ceilf` is
  applied to the exact product `rate * 0.05`.
- Engine.Dyncomp.SetAttack: requires `a > 0`. The C divides by `rate * a`
  whatever it gets, while the plugin's control ranges keep it positive.
- Engine.Dyncomp.SetRelease: requires `r > 0`, for the same reason.
- Plugin.Darc.Run: requires positive attack and release ports, as the two
  setters do.
- Plugin.ReportPeriod: requires `rate * 0.05 <= 2^32 - 1`. The C's conversion of
  a larger `ceilf` result to `uint32_t` is undefined.
- Plugin.BypassPassesAudio: stated for an engine whose gain and ratio have
  already settled at 1 and 0, for finite input, a non-negative `za1` and
  sane times. Blocks during the de-click ramp after switching to bypass are
  not claimed transparent.
- Hold off gives the hold level `p_hold = 0`, and the model follows this
  code. A freeze would then need `za1 < 0`, which `AttackFloorPersists`
  rules out once `za1 >= 0`, so hold off means no freeze.
