/**
 * The LV2 plugin around the engine: `instantiate` picks the channel count
 * from the plugin URI and sets up the 50 ms report period; `activate`
 * resets the engine; `run` forwards the control ports (or the bypass
 * defaults), processes the block and drains the report counter, reading
 * the gain report once per elapsed period and clamping it for the output
 * ports.
 */
module Plugin {
  import opened Float
  import opened DyncompSpec
  import opened Engine
  import DyncompProofs

  /** `uint32_t` */
  type u32 = x: int | 0 <= x < 0x1_0000_0000

  const DarcUri: string := "http://gareus.org/oss/lv2/darc#"
  const MonoUri: string := DarcUri + "mono"
  const StereoUri: string := DarcUri + "stereo"

  /** The control input ports as `run` reads them. */
  datatype Controls = Controls(
    enable: real,     // > 0: compress, else bypass
    hold: real,       // > 0: hold on
    inputGain: real,  // dB
    threshold: real,  // dBFS
    ratio: real,
    attack: real,     // seconds
    release: real)    // seconds

  /** `ceilf (x)`: the least integer not below `x` */
  function Ceil(x: real): (c: int)
    ensures (c - 1) as real < x <= c as real
  {
    -((-x).Floor)
  }

  /** The report period `ceilf (rate * 0.05)`: 50 ms worth of samples, never 0. */
  function ReportPeriod(rate: real): (t: u32)
    requires 0.0 < rate && rate * 0.05 <= 4294967295.0
    ensures 0 < t
    ensures (t - 1) as real < rate * 0.05 <= t as real
  {
    Ceil(rate * 0.05)
  }

  /** `fminf (hi, fmaxf (lo, x))` */
  function Clamp(lo: real, hi: real, x: real): (y: real)
    requires lo <= hi
    ensures lo <= y <= hi
    ensures lo <= x <= hi ==> y == x
    ensures x < lo ==> y == lo
    ensures hi < x ==> y == hi
  {
    var m := if lo < x then x else lo;
    if m < hi then m else hi
  }

  /** The report as the output ports show it: gains within [-20, 40] dB, the level within [-80, 10] dBFS. */
  function ClampReport(r: Report): (c: Report)
    ensures -20.0 <= c.gmin <= 40.0 && -20.0 <= c.gmax <= 40.0 && -80.0 <= c.rms <= 10.0
    ensures -20.0 <= r.gmin <= 40.0 ==> c.gmin == r.gmin
    ensures -20.0 <= r.gmax <= 40.0 ==> c.gmax == r.gmax
    ensures -80.0 <= r.rms <= 10.0 ==> c.rms == r.rms
  {
    Report(Clamp(-20.0, 40.0, r.gmin), Clamp(-20.0, 40.0, r.gmax), Clamp(-80.0, 10.0, r.rms))
  }

  /**
   * The engine after the setters `run` calls, in its order: input gain `g`,
   * threshold `t`, ratio `r`, hold `h`, attack `a` and release `rel`.
   */
  function Settled(k: Config, s: State, g: real, t: real, r: real, h: bool, a: real, rel: real): State
    requires k.sampleRate > 0.0 && a > 0.0 && rel > 0.0
  {
    SetRelease(k, SetAttack(k, SetHold(SetRatio(SetThreshold(k, SetInputGain(k, s, g), t), r), h), a), rel)
  }

  /** The settings `run` forwards: the control ports when enabled, the neutral ones when bypassed. */
  datatype Settings = Settings(gain: real, threshold: real, ratio: real, hold: bool)

  function Forwarded(ctl: Controls): (p: Settings)
    ensures ctl.enable > 0.0 ==> p == Settings(ctl.inputGain, ctl.threshold, ctl.ratio, ctl.hold > 0.0)
    ensures ctl.enable <= 0.0 ==> p == Settings(0.0, -10.0, 0.0, false)
  {
    if ctl.enable > 0.0 then Settings(ctl.inputGain, ctl.threshold, ctl.ratio, ctl.hold > 0.0)
    else Settings(0.0, -10.0, 0.0, false)
  }

  /**
   * What forwarding does to a consistent engine: every cached setting holds
   * its forwarded value and its coefficient is recomputed from it.
   */
  function Forward(k: Config, s: State, ctl: Controls): State
    requires k.sampleRate > 0.0 && ctl.attack > 0.0 && ctl.release > 0.0
  {
    var p := Forwarded(ctl);
    s.(lIgn := p.gain, pIgn := k.lib.exp10(0.05 * p.gain),
       lThr := p.threshold, pThr := 0.5 * k.lib.exp10(0.1 * p.threshold),
       pRat := 0.5 * p.ratio, hold := p.hold,
       tAtt := ctl.attack, wAtt := 0.5 / (k.sampleRate * ctl.attack),
       tRel := ctl.release, wRel := 3.5 / (k.sampleRate * ctl.release))
  }

  /** A cached setter finds its pair consistent, so it installs the new value outright. */
  lemma InputGainSetterInstalls(k: Config, s: State, g: real)
    requires s.pIgn == k.lib.exp10(0.05 * s.lIgn)
    ensures SetInputGain(k, s, g) == s.(lIgn := g, pIgn := k.lib.exp10(0.05 * g))
  {
  }

  lemma ThresholdSetterInstalls(k: Config, s: State, t: real)
    requires s.pThr == 0.5 * k.lib.exp10(0.1 * s.lThr)
    ensures SetThreshold(k, s, t) == s.(lThr := t, pThr := 0.5 * k.lib.exp10(0.1 * t))
  {
  }

  lemma AttackSetterInstalls(k: Config, s: State, a: real)
    requires k.sampleRate > 0.0 && a > 0.0 && s.tAtt > 0.0 && s.wAtt == 0.5 / (k.sampleRate * s.tAtt)
    ensures SetAttack(k, s, a) == s.(tAtt := a, wAtt := 0.5 / (k.sampleRate * a))
  {
  }

  lemma ReleaseSetterInstalls(k: Config, s: State, rel: real)
    requires k.sampleRate > 0.0 && rel > 0.0 && s.tRel > 0.0 && s.wRel == 3.5 / (k.sampleRate * s.tRel)
    ensures SetRelease(k, s, rel) == s.(tRel := rel, wRel := 3.5 / (k.sampleRate * rel))
  {
  }

  /**
   * The cached setters, called in `run`'s order on a consistent engine,
   * amount to forwarding, and keep the engine consistent.
   */
  lemma SettledIsForward(k: Config, s: State, ctl: Controls)
    requires Consistent(k, s) && ctl.attack > 0.0 && ctl.release > 0.0
    ensures var p := Forwarded(ctl);
            Settled(k, s, p.gain, p.threshold, p.ratio, p.hold, ctl.attack, ctl.release) == Forward(k, s, ctl)
    ensures Consistent(k, Forward(k, s, ctl))
  {
    var p, a, rel := Forwarded(ctl), ctl.attack, ctl.release;
    var s1 := SetInputGain(k, s, p.gain);
    InputGainSetterInstalls(k, s, p.gain);
    var s2 := SetThreshold(k, s1, p.threshold);
    ThresholdSetterInstalls(k, s1, p.threshold);
    var s4 := SetHold(SetRatio(s2, p.ratio), p.hold);
    AttackSetterInstalls(k, s4, a);
    ReleaseSetterInstalls(k, SetAttack(k, s4, a), rel);
    ForwardConsistent(k, s, ctl);
  }

  lemma ForwardConsistent(k: Config, s: State, ctl: Controls)
    requires Consistent(k, s) && ctl.attack > 0.0 && ctl.release > 0.0
    ensures Consistent(k, Forward(k, s, ctl))
  {
    var p, s' := Forwarded(ctl), Forward(k, s, ctl);
    assert s'.lIgn == p.gain && s'.pIgn == k.lib.exp10(0.05 * p.gain);
    assert s'.lThr == p.threshold && s'.pThr == 0.5 * k.lib.exp10(0.1 * p.threshold);
    assert s'.tAtt == ctl.attack && s'.wAtt == 0.5 / (k.sampleRate * ctl.attack);
    assert s'.tRel == ctl.release && s'.wRel == 3.5 / (k.sampleRate * ctl.release);
  }

  /**
   * Forwarding keeps the engine consistent; enabled, it installs the
   * settings of the ports; bypassed, unity gain, a -10 dB threshold, no
   * compression and no hold. The attack and release times are forwarded
   * either way, and the gain and ratio in flight and the filter state are
   * left alone.
   */
  lemma ForwardSettles(k: Config, s: State, ctl: Controls)
    requires Consistent(k, s) && ctl.attack > 0.0 && ctl.release > 0.0
    ensures var s' := Forward(k, s, ctl);
            && Consistent(k, s')
            && s'.tAtt == ctl.attack && s'.tRel == ctl.release
            && s'.igain == s.igain && s'.ratio == s.ratio && s'.za1 == s.za1
    ensures var s' := Forward(k, s, ctl);
            ctl.enable > 0.0 ==>
              && s'.pIgn == k.lib.exp10(0.05 * ctl.inputGain)
              && s'.pThr == 0.5 * k.lib.exp10(0.1 * ctl.threshold)
              && s'.pRat == 0.5 * ctl.ratio
              && s'.hold == (ctl.hold > 0.0)
    ensures var s' := Forward(k, s, ctl);
            ctl.enable <= 0.0 ==>
              s'.pIgn == 1.0 && s'.pThr == 0.05 && s'.pRat == 0.0 && !s'.hold
  {
    SettledIsForward(k, s, ctl);
    if ctl.enable <= 0.0 {
      assert 0.1 * -10.0 == -1.0;
    }
  }

  /**
   * Timing that keeps the coefficients tame: a sample rate of at least
   * 160 Hz, an attack of at least half a sample and a release of more
   * than 3.5 samples.
   */
  predicate TameTimes(rate: real, attack: real, release: real) {
    rate >= 160.0 && rate * attack >= 0.5 && rate * release > 3.5
  }

  /**
   * The block `s` starts is neutral: unity gain and no compression from the
   * first sample, nothing to ramp, the filter at `z`, and tame timing
   * coefficients.
   */
  ghost predicate NeutralStart(k: Config, s: State, z: real) {
    var b, c0 := BlockOf(k, s), StartOf(k, s);
    && DyncompProofs.Tame(b)
    && b.dg == 0.0 && c0.g == 1.0 && b.dr == 0.0 && c0.r == 0.0 && c0.za1 == Fin(z)
  }

  /**
   * Bypassed, with the engine's gain and ratio already at the bypass
   * values, the block starts neutral.
   */
  lemma BypassSettles(k: Config, s: State, ctl: Controls)
    requires Consistent(k, s) && ctl.enable <= 0.0 && ctl.attack > 0.0 && ctl.release > 0.0
    requires TameTimes(k.sampleRate, ctl.attack, ctl.release)
    requires GainSnaps(s.igain, 1.0) && RatioSnaps(s.ratio, 0.0)
    ensures NeutralStart(k, Forward(k, s, ctl), s.za1)
  {
    var s' := Forward(k, s, ctl);
    assert Consistent(k, s') && s'.pIgn == 1.0 && s'.pRat == 0.0 && s'.igain == s.igain && s'.ratio == s.ratio
        && s'.za1 == s.za1 && s'.tAtt == ctl.attack && s'.tRel == ctl.release by {
      ForwardSettles(k, s, ctl);
    }
    NeutralBlock(k, s', s.za1);
  }

  /** A consistent state at unity gain and no compression, with nothing left to ramp, starts neutral. */
  lemma NeutralBlock(k: Config, s: State, z: real)
    requires Consistent(k, s) && s.pIgn == 1.0 && s.pRat == 0.0 && s.za1 == z
    requires GainSnaps(s.igain, 1.0) && RatioSnaps(s.ratio, 0.0)
    requires TameTimes(k.sampleRate, s.tAtt, s.tRel)
    ensures NeutralStart(k, s, z)
  {
    DyncompProofs.BlockTame(k, s);
    DyncompProofs.SnapIff(k, s);
  }

  /**
   * Bypass is transparent: once the engine's gain and ratio have settled
   * on the bypass values, `run` passes a block of finite input through
   * unchanged, provided the timing coefficients are tame.
   */
  lemma BypassPassesAudio(k: Config, s: State, ctl: Controls, inp: seq<seq<Num>>, n: nat)
    requires Consistent(k, s) && ctl.enable <= 0.0 && ctl.attack > 0.0 && ctl.release > 0.0
    requires TameTimes(k.sampleRate, ctl.attack, ctl.release)
    requires GainSnaps(s.igain, 1.0) && RatioSnaps(s.ratio, 0.0) && s.za1 >= 0.0
    requires Shaped(inp, k.nChannels, n) && DyncompProofs.AllFinite(inp, k.nChannels, n)
    ensures var s' := Forward(k, s, ctl);
            forall i, j :: 0 <= i < k.nChannels && 0 <= j < n ==>
              Mul(FactorAt(BlockOf(k, s'), StartOf(k, s'), inp, j), inp[i][j]) == inp[i][j]
  {
    var s' := Forward(k, s, ctl);
    var b, c0 := BlockOf(k, s'), StartOf(k, s');
    BypassSettles(k, s, ctl);
    DyncompProofs.BypassTransparent(b, c0, inp, n);
  }

  /** The plugin instance `Darc`. */
  class Darc {
    const dyncomp: Dyncomp
    const sampletme: u32  // the report period, 50 ms
    var samplecnt: u32    // samples since the last report
    var gmin: real        // last reported values, as written to the output ports
    var gmax: real
    var rms: real

    ghost predicate Valid()
      reads this, dyncomp
    {
      && dyncomp.Valid()
      && (dyncomp.nChannels == 1 || dyncomp.nChannels == 2)
      && 0 < sampletme
      && samplecnt <= sampletme
      && -20.0 <= gmin <= 40.0 && -20.0 <= gmax <= 40.0 && -80.0 <= rms <= 10.0
    }

    /** The zero-filled instance of `instantiate`, with the engine initialised. */
    constructor (rate: real, nc: nat, lib: Libm)
      requires 0.0 < rate && rate * 0.05 <= 4294967295.0 && (nc == 1 || nc == 2) && Lawful(lib)
      ensures Valid() && fresh(dyncomp)
      ensures dyncomp.sampleRate == rate && dyncomp.nChannels == nc && dyncomp.lib == lib
      ensures dyncomp.Snapshot() == Init(dyncomp.Cfg())
      ensures sampletme == ReportPeriod(rate) && samplecnt == sampletme
      ensures gmin == 0.0 && gmax == 0.0 && rms == 0.0
    {
      dyncomp := new Dyncomp(rate, nc, lib);
      sampletme := ReportPeriod(rate);
      samplecnt := ReportPeriod(rate);
      gmin, gmax, rms := 0.0, 0.0, 0.0;
    }

    /** `activate`: reset the engine and wait a full period for the first report. */
    method Activate()
      requires Valid()
      modifies this, dyncomp
      ensures Valid()
      ensures dyncomp.Snapshot() == DyncompSpec.Reset(old(dyncomp.Snapshot()))
      ensures samplecnt == sampletme
      ensures gmin == old(gmin) && gmax == old(gmax) && rms == old(rms)
    {
      DyncompProofs.PlainSettersKeepConsistent(dyncomp.Cfg(), dyncomp.Snapshot(), 0.0, false);
      dyncomp.Reset();
      samplecnt := sampletme;
    }

    /** The parameter forwarding at the start of `run`. */
    method ForwardControls(ctl: Controls)
      requires Valid() && ctl.attack > 0.0 && ctl.release > 0.0
      modifies dyncomp
      ensures Valid()
      ensures dyncomp.Snapshot() == Forward(dyncomp.Cfg(), old(dyncomp.Snapshot()), ctl)
    {
      ghost var s0 := dyncomp.Snapshot();
      ghost var p := Forwarded(ctl);
      SettledIsForward(dyncomp.Cfg(), s0, ctl);
      // bypass/enable
      if ctl.enable > 0.0 {
        dyncomp.SetInputGain(ctl.inputGain);
        dyncomp.SetThreshold(ctl.threshold);
        dyncomp.SetRatio(ctl.ratio);
        dyncomp.SetHold(ctl.hold > 0.0);
      } else {
        dyncomp.SetInputGain(0.0);
        dyncomp.SetThreshold(-10.0);
        dyncomp.SetRatio(0.0);
        dyncomp.SetHold(false);
      }
      dyncomp.SetAttack(ctl.attack);
      dyncomp.SetRelease(ctl.release);
      assert dyncomp.Snapshot() == Settled(dyncomp.Cfg(), s0, p.gain, p.threshold, p.ratio, p.hold, ctl.attack, ctl.release);
    }

    /**
     * The report cadence at the end of `run`: count the block's samples
     * (in `uint32_t`) and, for every full period elapsed, read the engine's
     * gain report and clamp it for the output ports.
     */
    method DrainReports(n: u32, ghost s0: State)
      requires Valid() && dyncomp.Snapshot() == s0
      modifies this, dyncomp
      ensures Valid()
      ensures var total := (old(samplecnt) + n) % 0x1_0000_0000;
              && samplecnt == Drained(total, sampletme)
              && (total >= sampletme ==>
                    && dyncomp.Snapshot() == s0.(newg := true)
                    && Report(gmin, gmax, rms) == ClampReport(GainReport(dyncomp.lib, s0)))
              && (total < sampletme ==>
                    && dyncomp.Snapshot() == s0
                    && gmin == old(gmin) && gmax == old(gmax) && rms == old(rms))
    {
      ghost var report := GainReport(dyncomp.lib, s0);
      var total: u32 := (samplecnt + n) % 0x1_0000_0000;
      samplecnt := total;

      // a report only raises the restart flag
      assert Consistent(dyncomp.Cfg(), s0.(newg := true));
      assert GainReport(dyncomp.lib, s0.(newg := true)) == report;
      while samplecnt >= sampletme
        invariant samplecnt <= total && Drained(samplecnt, sampletme) == Drained(total, sampletme)
        invariant samplecnt < total ==> total >= sampletme
        invariant dyncomp.Valid()
        invariant samplecnt < total ==>
                    && dyncomp.Snapshot() == s0.(newg := true)
                    && Report(gmin, gmax, rms) == ClampReport(report)
        invariant samplecnt == total ==>
                    && dyncomp.Snapshot() == s0
                    && gmin == old(gmin) && gmax == old(gmax) && rms == old(rms)
        decreases samplecnt
      {
        samplecnt := samplecnt - sampletme;
        var lo, hi, level := dyncomp.GetGain();
        assert dyncomp.Snapshot() == s0.(newg := true);
        assert Report(lo, hi, level) == report;
        gmin := Clamp(-20.0, 40.0, lo);
        gmax := Clamp(-20.0, 40.0, hi);
        rms := Clamp(-80.0, 10.0, level);
        assert Report(gmin, gmax, rms) == ClampReport(report);
      }
    }

    /** The forwarding and the engine's block at the start of `run`. */
    method ProcessBlock(n: u32, ctl: Controls, inp: seq<seq<Num>>, out: seq<array<Num>>)
      requires Valid() && ctl.attack > 0.0 && ctl.release > 0.0
      requires Shaped(inp, dyncomp.nChannels, n) && OutShaped(out, dyncomp.nChannels, n)
      modifies dyncomp, set i | 0 <= i < dyncomp.nChannels :: out[i]
      ensures Valid()
      ensures dyncomp.Snapshot() == AfterBlock(dyncomp.Cfg(), Forward(dyncomp.Cfg(), old(dyncomp.Snapshot()), ctl), inp, n)
      ensures forall i, j :: 0 <= i < dyncomp.nChannels && 0 <= j < n ==>
                out[i][j] == Mul(FactorAt(BlockOf(dyncomp.Cfg(), Forward(dyncomp.Cfg(), old(dyncomp.Snapshot()), ctl)),
                                          StartOf(dyncomp.Cfg(), Forward(dyncomp.Cfg(), old(dyncomp.Snapshot()), ctl)), inp, j), inp[i][j])
      ensures forall i, j :: 0 <= i < dyncomp.nChannels && n <= j < out[i].Length ==> out[i][j] == old(out[i][j])
    {
      ForwardControls(ctl);
      dyncomp.Process(n, inp, out);
    }

    /**
     * `run`: forward the controls, compress the block into the outputs,
     * then drain the report counter and write the (clamped) report to the
     * output ports.
     */
    method Run(n: u32, ctl: Controls, inp: seq<seq<Num>>, out: seq<array<Num>>)
        returns (gminPort: real, gmaxPort: real, rmsPort: real)
      requires Valid() && ctl.attack > 0.0 && ctl.release > 0.0
      requires Shaped(inp, dyncomp.nChannels, n) && OutShaped(out, dyncomp.nChannels, n)
      modifies this, dyncomp, set i | 0 <= i < dyncomp.nChannels :: out[i]
      ensures Valid()
      ensures var k := dyncomp.Cfg();
              var s1 := Forward(k, old(dyncomp.Snapshot()), ctl);
              var s2 := AfterBlock(k, s1, inp, n);
              var total := (old(samplecnt) + n) % 0x1_0000_0000;
              && samplecnt == Drained(total, sampletme)
              && (forall i, j :: 0 <= i < k.nChannels && 0 <= j < n ==>
                    out[i][j] == Mul(FactorAt(BlockOf(k, s1), StartOf(k, s1), inp, j), inp[i][j]))
              && (total >= sampletme ==>
                    && dyncomp.Snapshot() == s2.(newg := true)
                    && Report(gmin, gmax, rms) == ClampReport(GainReport(k.lib, s2)))
              && (total < sampletme ==>
                    && dyncomp.Snapshot() == s2
                    && gmin == old(gmin) && gmax == old(gmax) && rms == old(rms))
      ensures forall i, j :: 0 <= i < dyncomp.nChannels && n <= j < out[i].Length ==> out[i][j] == old(out[i][j])
      ensures gminPort == gmin && gmaxPort == gmax && rmsPort == rms
      ensures -20.0 <= gminPort <= 40.0 && -20.0 <= gmaxPort <= 40.0 && -80.0 <= rmsPort <= 10.0
    {
      ghost var s2 := AfterBlock(dyncomp.Cfg(), Forward(dyncomp.Cfg(), dyncomp.Snapshot(), ctl), inp, n);
      ProcessBlock(n, ctl, inp, out);
      DrainReports(n, s2);
      gminPort, gmaxPort, rmsPort := gmin, gmax, rms;
    }
  }

  /** What is left of `cnt` samples after subtracting whole report periods. */
  function Drained(cnt: nat, period: nat): (rest: nat)
    requires 0 < period
    ensures rest < period
    decreases cnt
  {
    if cnt >= period then Drained(cnt - period, period) else cnt
  }

  lemma MulAtLeast(d: int, p: int)
    requires d >= 1 && p > 0
    ensures d * p >= p
  {
    assert d * p == (d - 1) * p + p;
    assert (d - 1) * p >= 0;
  }

  /** A count of `q` whole periods and a remainder `r` below one period is `a / p` and `a % p`. */
  lemma ModUnique(a: int, q: int, r: int, p: int)
    requires 0 < p && 0 <= r < p && a == q * p + r
    ensures a % p == r
  {
    var q' := a / p;
    assert a == q' * p + a % p;
    if q > q' {
      MulAtLeast(q - q', p);
    } else if q < q' {
      MulAtLeast(q' - q, p);
    }
  }

  /**
   * Draining leaves the remainder of the count by the period, after
   * `cnt / period` subtractions.
   */
  lemma {:induction false} DrainedIsRemainder(cnt: nat, period: nat)
    requires 0 < period
    ensures Drained(cnt, period) == cnt % period
    decreases cnt
  {
    if cnt >= period {
      DrainedIsRemainder(cnt - period, period);
      var q, r := (cnt - period) / period, (cnt - period) % period;
      assert cnt - period == q * period + r;
      assert (q + 1) * period == q * period + period;
      ModUnique(cnt, q + 1, r, period);
    } else {
      ModUnique(cnt, 0, cnt, period);
    }
  }

  /**
   * `instantiate`: a mono or a stereo instance for the two plugin URIs, and
   * none for any other.
   */
  method Instantiate(uri: string, rate: real, lib: Libm) returns (d: Darc?)
    requires 0.0 < rate && rate * 0.05 <= 4294967295.0 && Lawful(lib)
    ensures d == null <==> uri != MonoUri && uri != StereoUri
    ensures d != null ==>
              && fresh(d) && fresh(d.dyncomp) && d.Valid()
              && d.dyncomp.nChannels == (if uri == MonoUri then 1 else 2)
              && d.dyncomp.sampleRate == rate
              && d.dyncomp.Snapshot() == Init(d.dyncomp.Cfg())
              && d.sampletme == ReportPeriod(rate) && d.samplecnt == d.sampletme
  {
    var nChannels: nat;
    if uri == MonoUri {
      nChannels := 1;
    } else if uri == StereoUri {
      nChannels := 2;
    } else {
      return null;
    }
    d := new Darc(rate, nChannels, lib);
  }
}
