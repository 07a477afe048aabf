/**
 * What the compressor engine promises, proved of the functions in
 * DyncompSpec: the cached setters, the reset, the de-click ramps, the attack
 * filter, the hold freeze of the release cascade, the gain-extrema window,
 * the recovery from non-finite state and the health of the gain factor.
 */
module DyncompProofs {
  import opened Float
  import opened DyncompSpec

  // ---------------------------------------------------------------------
  // Setters, reset and initialisation

  /** `Dyncomp_init` leaves unity gain, no compression, a -10 dB threshold and 10/30 ms timing. */
  lemma InitConsistent(k: Config)
    requires WellFormed(k)
    ensures Consistent(k, Init(k))
    ensures Init(k).igain == 1.0 && Init(k).lIgn == 0.0 && Init(k).ratio == 0.0 && Init(k).pRat == 0.0
    ensures Init(k).lThr == -10.0 && Init(k).pThr == 0.05 && !Init(k).hold
    ensures Init(k).tAtt == 0.01 && Init(k).tRel == 0.03
    ensures Init(k).newg
  {
    // the hard-coded 0.05 is the threshold power of -10 dB
    assert 0.1 * -10.0 == -1.0;
  }

  /** Setting the input gain keeps `p_ign = 10^(0.05 l_ign)`. */
  lemma InputGainKeepsConsistent(k: Config, s: State, g: real)
    requires Consistent(k, s)
    ensures Consistent(k, SetInputGain(k, s, g))
  {
  }

  /** Setting the threshold keeps `p_thr = 0.5 10^(0.1 l_thr)`. */
  lemma ThresholdKeepsConsistent(k: Config, s: State, t: real)
    requires Consistent(k, s)
    ensures Consistent(k, SetThreshold(k, s, t))
  {
  }

  /** Setting the attack time keeps `w_att = 0.5 / (rate t_att)`. */
  lemma AttackKeepsConsistent(k: Config, s: State, a: real)
    requires Consistent(k, s) && a > 0.0
    ensures Consistent(k, SetAttack(k, s, a))
  {
  }

  /** Setting the release time keeps `w_rel = 3.5 / (rate t_rel)`. */
  lemma ReleaseKeepsConsistent(k: Config, s: State, r: real)
    requires Consistent(k, s) && r > 0.0
    ensures Consistent(k, SetRelease(k, s, r))
  {
  }

  /** Ratio, hold and reset touch no cached input and no coefficient derived from one. */
  lemma PlainSettersKeepConsistent(k: Config, s: State, ratio: real, hold: bool)
    requires Consistent(k, s)
    ensures Consistent(k, SetRatio(s, ratio))
    ensures Consistent(k, SetHold(s, hold))
    ensures Consistent(k, Reset(s))
  {
  }

  /**
   * The cache is unobservable: on a consistent state each cached setter
   * yields exactly what recomputing the coefficient would.
   */
  lemma CachingIsTransparent(k: Config, s: State, g: real, t: real, a: real, r: real)
    requires Consistent(k, s) && a > 0.0 && r > 0.0
    ensures SetInputGain(k, s, g) == s.(lIgn := g, pIgn := k.lib.exp10(0.05 * g))
    ensures SetThreshold(k, s, t) == s.(lThr := t, pThr := 0.5 * k.lib.exp10(0.1 * t))
    ensures SetAttack(k, s, a) == s.(tAtt := a, wAtt := 0.5 / (k.sampleRate * a))
    ensures SetRelease(k, s, r) == s.(tRel := r, wRel := 3.5 / (k.sampleRate * r))
  {
  }

  /** Calling a setter again with the value it was just given changes no field. */
  lemma SettersIdempotent(k: Config, s: State, g: real, t: real, a: real, r: real, ratio: real, hold: bool)
    requires k.sampleRate > 0.0 && a > 0.0 && r > 0.0
    ensures SetInputGain(k, SetInputGain(k, s, g), g) == SetInputGain(k, s, g)
    ensures SetThreshold(k, SetThreshold(k, s, t), t) == SetThreshold(k, s, t)
    ensures SetAttack(k, SetAttack(k, s, a), a) == SetAttack(k, s, a)
    ensures SetRelease(k, SetRelease(k, s, r), r) == SetRelease(k, s, r)
    ensures SetRatio(SetRatio(s, ratio), ratio) == SetRatio(s, ratio)
    ensures SetHold(SetHold(s, hold), hold) == SetHold(s, hold)
    ensures Reset(Reset(s)) == Reset(s)
  {
  }

  /**
   * After a reset the next block starts from silent filters and a fresh
   * extrema window, with the same coefficients as before the reset.
   */
  lemma ResetRestartsWindow(k: Config, s: State)
    ensures BlockOf(k, Reset(s)) == BlockOf(k, s)
    ensures StartOf(k, Reset(s)).za1 == Fin(0.0) && StartOf(k, Reset(s)).rms == Fin(0.0)
    ensures StartOf(k, Reset(s)).zr1 == 0.0 && StartOf(k, Reset(s)).zr2 == 0.0
    ensures StartOf(k, Reset(s)).gmin == 100.0 && StartOf(k, Reset(s)).gmax == -100.0
    ensures StartOf(k, Reset(s)).g == StartOf(k, s).g && StartOf(k, Reset(s)).r == StartOf(k, s).r
  {
  }

  // ---------------------------------------------------------------------
  // Gain and ratio de-click ramps

  /** `x` lies between `a` and `t`, whichever is larger. */
  predicate Between(a: real, t: real, x: real) {
    (a <= x <= t) || (t <= x <= a)
  }

  /** A zero step is exactly a snap: `dg` (`dr`) is 0 precisely when the gain (ratio) snapped. */
  lemma SnapIff(k: Config, s: State)
    ensures BlockOf(k, s).dg == 0.0 <==> GainSnaps(s.igain, s.pIgn)
    ensures BlockOf(k, s).dr == 0.0 <==> RatioSnaps(s.ratio, s.pRat)
    ensures GainSnaps(s.igain, s.pIgn) ==> StartOf(k, s).g == s.pIgn
    ensures RatioSnaps(s.ratio, s.pRat) ==> StartOf(k, s).r == s.pRat
    ensures !GainSnaps(s.igain, s.pIgn) ==> StartOf(k, s).g == s.igain
    ensures !RatioSnaps(s.ratio, s.pRat) ==> StartOf(k, s).r == s.ratio
  {
  }

  /** The sign of a product of a non-negative and a non-positive number. */
  lemma ProductNonPositive(p: real, q: real)
    requires p >= 0.0 && q <= 0.0
    ensures p * q <= 0.0
  {
  }

  /** The sign of a product of two non-negative numbers. */
  lemma ProductNonNegative(p: real, q: real)
    requires p >= 0.0 && q >= 0.0
    ensures p * q >= 0.0
  {
  }

  /** One ramp step with `0 < w <= 1` moves toward the target without passing it. */
  lemma RampStaysBetween(d: real, w: real, t: real, x: real, a: real)
    requires 0.0 < w <= 1.0 && Between(a, t, x)
    ensures Between(a, t, Ramp(d, w, t, x))
    ensures Between(x, t, Ramp(d, w, t, x))
  {
    if d != 0.0 {
      var x' := x + w * (t - x);
      assert x' - t == (1.0 - w) * (x - t);
      if x <= t {
        ProductNonPositive(1.0 - w, x - t);
        ProductNonNegative(w, t - x);
      } else {
        ProductNonNegative(1.0 - w, x - t);
        ProductNonPositive(w, t - x);
      }
    }
  }

  /**
   * No overshoot: with `0 < w_lpf <= 1` the gain and the ratio stay between
   * their value at the start of the block and their targets.
   */
  lemma {:induction false} RampsStayBetween(b: Block, c0: Carry, inp: seq<seq<Num>>, n: nat)
    requires Shaped(inp, b.nc, n) && 0.0 < b.wLpf <= 1.0
    ensures Between(c0.g, b.g1, Run(b, c0, inp, n).g)
    ensures Between(c0.r, b.r1, Run(b, c0, inp, n).r)
  {
    if n > 0 {
      RampsStayBetween(b, c0, inp, n - 1);
      var c := Run(b, c0, inp, n - 1);
      RampStaysBetween(b.dg, b.wLpf, b.g1, c.g, c0.g);
      RampStaysBetween(b.dr, b.wLpf, b.r1, c.r, c0.r);
    }
  }

  /** A snapped gain (ratio) stays fixed for the whole block. */
  lemma {:induction false} SnapHolds(b: Block, c0: Carry, inp: seq<seq<Num>>, n: nat)
    requires Shaped(inp, b.nc, n)
    ensures b.dg == 0.0 ==> Run(b, c0, inp, n).g == c0.g
    ensures b.dr == 0.0 ==> Run(b, c0, inp, n).r == c0.r
  {
    if n > 0 {
      SnapHolds(b, c0, inp, n - 1);
    }
  }

  /** The gain and the ratio of one sample are one ramp step each. */
  lemma NextRamps(b: Block, c: Carry, inp: seq<seq<Num>>, j: nat)
    requires Shaped(inp, b.nc, j + 1)
    ensures Next(b, c, inp, j).g == Ramp(b.dg, b.wLpf, b.g1, c.g)
    ensures Next(b, c, inp, j).r == Ramp(b.dr, b.wLpf, b.r1, c.r)
  {
  }

  // ---------------------------------------------------------------------
  // Attack filter

  /** A non-finite value, or a finite one of at least `lo`. */
  predicate AtLeast(x: Num, lo: real) {
    x.Fin? ==> x.v >= lo
  }

  /**
   * With `0 <= w_att <= 1` the attack update is a convex combination of
   * `za1` and `p_thr + v`, so any floor `lo <= p_thr` that `za1` has it keeps.
   */
  lemma AttackStepFloor(b: Block, c: Carry, inp: seq<seq<Num>>, j: nat, lo: real)
    requires Shaped(inp, b.nc, j + 1)
    requires 0.0 <= b.wAtt <= 1.0 && b.norm >= 0.0 && lo <= b.pThr
    requires AtLeast(c.za1, lo)
    ensures AtLeast(Next(b, c, inp, j).za1, lo)
  {
    var g := Ramp(b.dg, b.wLpf, b.g1, c.g);
    var v := Mul(SumSq(g, inp, j, b.nc), Fin(b.norm));
    assert Next(b, c, inp, j).za1 == Attack(b, c.za1, v);
    if c.za1.Fin? && v.Fin? {
      var z, w := c.za1.v, b.wAtt;
      assert v.v >= 0.0;
      assert z + w * (b.pThr + v.v - z) == (1.0 - w) * z + w * (b.pThr + v.v);
      assert (1.0 - w) * z >= (1.0 - w) * lo;
      assert w * (b.pThr + v.v) >= w * lo;
    }
  }

  /** Once `za1` is at least `lo <= p_thr` (for instance 0, or `p_thr` itself) it stays so. */
  lemma {:induction false} AttackFloorPersists(b: Block, c0: Carry, inp: seq<seq<Num>>, m: nat, n: nat, lo: real)
    requires Shaped(inp, b.nc, n) && m <= n
    requires 0.0 <= b.wAtt <= 1.0 && b.norm >= 0.0 && lo <= b.pThr
    requires AtLeast(Run(b, c0, inp, m).za1, lo)
    ensures AtLeast(Run(b, c0, inp, n).za1, lo)
  {
    if m < n {
      AttackFloorPersists(b, c0, inp, m, n - 1, lo);
      AttackStepFloor(b, Run(b, c0, inp, n - 1), inp, n - 1, lo);
    }
  }

  // ---------------------------------------------------------------------
  // Release cascade and hold

  /**
   * The hold freeze: while the attack value stays below the hold level and
   * not above either release stage, both stages keep their values.
   */
  lemma {:induction false} HoldFreezes(b: Block, c0: Carry, inp: seq<seq<Num>>, m: nat, n: nat)
    requires Shaped(inp, b.nc, n) && m <= n
    requires forall j :: m <= j < n ==>
               && AttackAt(b, c0, inp, j).Fin?
               && AttackAt(b, c0, inp, j).v < b.pHold
               && AttackAt(b, c0, inp, j).v <= Run(b, c0, inp, m).zr1
               && AttackAt(b, c0, inp, j).v <= Run(b, c0, inp, m).zr2
    ensures Run(b, c0, inp, n).zr1 == Run(b, c0, inp, m).zr1
    ensures Run(b, c0, inp, n).zr2 == Run(b, c0, inp, m).zr2
  {
    if m < n {
      HoldFreezes(b, c0, inp, m, n - 1);
      var c := Run(b, c0, inp, n - 1);
      var za1 := AttackAt(b, c0, inp, n - 1);
      assert za1 == Next(b, c, inp, n - 1).za1;
      assert Less(za1, Fin(b.pHold));
      NextReleases(b, c, inp, n - 1);
    }
  }

  /** The release stages of one sample, in terms of that sample's attack value. */
  lemma NextReleases(b: Block, c: Carry, inp: seq<seq<Num>>, j: nat)
    requires Shaped(inp, b.nc, j + 1)
    ensures var c' := Next(b, c, inp, j);
            var hold := Less(c'.za1, Fin(b.pHold));
            && c'.zr1 == ReleaseFast(b.wRel, c'.za1, hold, c.zr1)
            && c'.zr2 == ReleaseSlow(b.wRel, c'.za1, hold, c'.zr1, c.zr2)
  {
  }

  /**
   * With hold off the hold level is 0, so as long as `za1` is not negative
   * nothing freezes: each stage follows a rising `za1` or decays.
   */
  lemma ReleaseWithoutHold(b: Block, c: Carry, inp: seq<seq<Num>>, j: nat)
    requires Shaped(inp, b.nc, j + 1)
    requires b.pHold == 0.0 && 0.0 <= b.wAtt <= 1.0 && b.norm >= 0.0 && b.pThr >= 0.0
    requires AtLeast(c.za1, 0.0)
    ensures var c' := Next(b, c, inp, j);
            && c'.zr1 == ReleaseFast(b.wRel, c'.za1, false, c.zr1)
            && c'.zr2 == ReleaseSlow(b.wRel, c'.za1, false, c'.zr1, c.zr2)
  {
    AttackStepFloor(b, c, inp, j, 0.0);
    NextReleases(b, c, inp, j);
  }

  /** The hold level is `2 p_thr` with hold on and 0 with hold off; `p_thr` is positive. */
  lemma HoldLevel(k: Config, s: State)
    requires Consistent(k, s)
    ensures BlockOf(k, s).pThr > 0.0
    ensures s.hold ==> BlockOf(k, s).pHold == 2.0 * BlockOf(k, s).pThr
    ensures BlockOf(k, s).pHold == 0.0 <==> !s.hold
  {
    assert k.lib.exp10(0.1 * s.lThr) > 0.0;
  }

  // ---------------------------------------------------------------------
  // Gain-extrema window

  /** One sample folds its gain exponent into the window. */
  lemma NextWindow(b: Block, c: Carry, inp: seq<seq<Num>>, j: nat)
    requires Shaped(inp, b.nc, j + 1)
    ensures var c' := Next(b, c, inp, j);
            var e := Exponent(b.lib, c'.r, c'.zr2);
            c'.gmin == Min(c.gmin, e) && c'.gmax == Max(c.gmax, e)
  {
  }

  /**
   * The window only widens, and it contains every finite gain exponent of
   * the samples it has seen.
   */
  lemma {:induction false} WindowBounds(b: Block, c0: Carry, inp: seq<seq<Num>>, n: nat)
    requires Shaped(inp, b.nc, n)
    ensures Run(b, c0, inp, n).gmin <= c0.gmin && Run(b, c0, inp, n).gmax >= c0.gmax
    ensures forall j :: 0 <= j < n && ExponentAt(b, c0, inp, j).Fin? ==>
              Run(b, c0, inp, n).gmin <= ExponentAt(b, c0, inp, j).v <= Run(b, c0, inp, n).gmax
  {
    if n > 0 {
      WindowBounds(b, c0, inp, n - 1);
      var c, c' := Run(b, c0, inp, n - 1), Run(b, c0, inp, n);
      NextWindow(b, c, inp, n - 1);
      forall j | 0 <= j < n && ExponentAt(b, c0, inp, j).Fin?
        ensures c'.gmin <= ExponentAt(b, c0, inp, j).v <= c'.gmax
      {
        if j < n - 1 {
          assert c.gmin <= ExponentAt(b, c0, inp, j).v <= c.gmax;
        }
      }
    }
  }

  /** Each end of the window is where it started or the exponent of some sample. */
  lemma {:induction false} WindowAttained(b: Block, c0: Carry, inp: seq<seq<Num>>, n: nat)
    requires Shaped(inp, b.nc, n)
    ensures Run(b, c0, inp, n).gmin == c0.gmin
            || exists j :: 0 <= j < n && ExponentAt(b, c0, inp, j) == Fin(Run(b, c0, inp, n).gmin)
    ensures Run(b, c0, inp, n).gmax == c0.gmax
            || exists j :: 0 <= j < n && ExponentAt(b, c0, inp, j) == Fin(Run(b, c0, inp, n).gmax)
  {
    if n > 0 {
      WindowAttained(b, c0, inp, n - 1);
      var c, c' := Run(b, c0, inp, n - 1), Run(b, c0, inp, n);
      NextWindow(b, c, inp, n - 1);
      var e := ExponentAt(b, c0, inp, n - 1);
      if c'.gmin != c.gmin {
        assert e == Fin(c'.gmin);
      } else if c'.gmin != c0.gmin {
        var j :| 0 <= j < n - 1 && ExponentAt(b, c0, inp, j) == Fin(c.gmin);
        assert ExponentAt(b, c0, inp, j) == Fin(c'.gmin);
      }
      if c'.gmax != c.gmax {
        assert e == Fin(c'.gmax);
      } else if c'.gmax != c0.gmax {
        var j :| 0 <= j < n - 1 && ExponentAt(b, c0, inp, j) == Fin(c.gmax);
        assert ExponentAt(b, c0, inp, j) == Fin(c'.gmax);
      }
    }
  }

  /**
   * After a block whose input was finite, the stored window contains the
   * gain exponent of every sample of the block; it continues the previous
   * window unless a restart was pending.
   */
  lemma BlockReportsWindow(k: Config, s: State, inp: seq<seq<Num>>, n: nat)
    requires Shaped(inp, k.nChannels, n) && AllFinite(inp, k.nChannels, n)
    ensures var s' := AfterBlock(k, s, inp, n);
            var b, c0 := BlockOf(k, s), StartOf(k, s);
            && !s'.newg
            && (forall j :: 0 <= j < n && ExponentAt(b, c0, inp, j).Fin? ==>
                  s'.gmin <= ExponentAt(b, c0, inp, j).v <= s'.gmax)
            && (!s.newg ==> s'.gmin <= s.gmin && s'.gmax >= s.gmax)
            && (s.newg ==> s'.gmin <= 100.0 && s'.gmax >= -100.0)
  {
    var b, c0 := BlockOf(k, s), StartOf(k, s);
    NonFiniteSticks(b, c0, inp, n);
    WindowBounds(b, c0, inp, n);
  }

  /**
   * A block of no samples right after a restart stores the untouched
   * restart values, so the next report is the inverted window
   * `gmin = 100 * 8.68589 > gmax = -100 * 8.68589`.
   */
  lemma EmptyBlockInvertsWindow(k: Config, s: State, inp: seq<seq<Num>>)
    requires Shaped(inp, k.nChannels, 0) && s.newg
    ensures AfterBlock(k, s, inp, 0).gmin == 100.0 && AfterBlock(k, s, inp, 0).gmax == -100.0
    ensures !AfterBlock(k, s, inp, 0).newg
    ensures GainReport(k.lib, AfterBlock(k, s, inp, 0)).gmin > GainReport(k.lib, AfterBlock(k, s, inp, 0)).gmax
  {
  }

  // ---------------------------------------------------------------------
  // Non-finite values

  /** Every sample of the first `nc` channels before `n` is finite. */
  ghost predicate AllFinite(inp: seq<seq<Num>>, nc: nat, n: nat)
    requires Shaped(inp, nc, n)
  {
    forall i, j :: 0 <= i < nc && 0 <= j < n ==> inp[i][j].Fin?
  }

  /** The attack filter and the level meter of one sample are finite exactly when they were and the sample is. */
  lemma NextFinite(b: Block, c: Carry, inp: seq<seq<Num>>, j: nat)
    requires Shaped(inp, b.nc, j + 1)
    ensures Next(b, c, inp, j).za1.Fin? <==> c.za1.Fin? && forall i :: 0 <= i < b.nc ==> inp[i][j].Fin?
    ensures Next(b, c, inp, j).rms.Fin? <==> c.rms.Fin? && forall i :: 0 <= i < b.nc ==> inp[i][j].Fin?
  {
    var g := Ramp(b.dg, b.wLpf, b.g1, c.g);
    var v := Mul(SumSq(g, inp, j, b.nc), Fin(b.norm));
    assert v.Fin? <==> forall i :: 0 <= i < b.nc ==> inp[i][j].Fin?;
  }

  /**
   * A non-finite value never leaves the loop: after `n` samples the attack
   * filter and the level meter are finite exactly when they started finite
   * and every input sample so far was finite.
   */
  lemma {:induction false} NonFiniteSticks(b: Block, c0: Carry, inp: seq<seq<Num>>, n: nat)
    requires Shaped(inp, b.nc, n)
    ensures Run(b, c0, inp, n).za1.Fin? <==> c0.za1.Fin? && AllFinite(inp, b.nc, n)
    ensures Run(b, c0, inp, n).rms.Fin? <==> c0.rms.Fin? && AllFinite(inp, b.nc, n)
  {
    if n > 0 {
      NonFiniteSticks(b, c0, inp, n - 1);
      NextFinite(b, Run(b, c0, inp, n - 1), inp, n - 1);
      if AllFinite(inp, b.nc, n - 1) && forall i :: 0 <= i < b.nc ==> inp[i][n - 1].Fin? {
        forall i, j | 0 <= i < b.nc && 0 <= j < n ensures inp[i][j].Fin? {
          if j < n - 1 {
            assert inp[i][j].Fin?;
          }
        }
      }
    }
  }

  /**
   * The write-back recovers exactly when the block met a non-finite sample:
   * then the filters and the meter restart from 0, the window restarts at
   * the next block, and the extrema of the spoilt block are not stored.
   */
  lemma RecoveryIff(k: Config, s: State, inp: seq<seq<Num>>, n: nat)
    requires Shaped(inp, k.nChannels, n)
    ensures AfterBlock(k, s, inp, n).newg <==> !AllFinite(inp, k.nChannels, n)
    ensures !AllFinite(inp, k.nChannels, n) ==>
              var s' := AfterBlock(k, s, inp, n);
              && s'.za1 == 0.0 && s'.zr1 == 0.0 && s'.zr2 == 0.0 && s'.rms == 0.0
              && s'.gmin == s.gmin && s'.gmax == s.gmax
  {
    NonFiniteSticks(BlockOf(k, s), StartOf(k, s), inp, n);
  }

  // ---------------------------------------------------------------------
  // A healthy gain factor

  /** The coefficients under which the loop stays healthy. */
  ghost predicate Tame(b: Block) {
    && 0.0 < b.wAtt <= 1.0
    && 0.0 <= b.wRel < 1.0
    && 0.0 < b.wLpf <= 1.0
    && b.pThr > 0.0
    && b.norm >= 0.0
    && Lawful(b.lib)
  }

  /** The quotient of two positive numbers with the dividend not above the divisor. */
  lemma QuotientAtMostOne(x: real, p: real)
    requires 0.0 < x <= p
    ensures 0.0 < x / p <= 1.0
  {
  }

  /** A product with a positive factor is positive only if the other factor is. */
  lemma PositiveFactor(a: real, p: real)
    requires p > 0.0 && a * p > 0.0
    ensures a > 0.0
  {
    if a <= 0.0 {
      ProductNonPositive(p, a);
    }
  }

  /** The quotient of two positive numbers with the dividend below the divisor. */
  lemma QuotientBelowOne(x: real, p: real)
    requires 0.0 < x < p
    ensures 0.0 < x / p < 1.0
  {
    var q := x / p;
    assert q * p == x;
    assert (1.0 - q) * p == p - x;
    PositiveFactor(1.0 - q, p);
  }

  /**
   * An engine running at 160 Hz or more, whose attack time spans at least
   * half a sample (`rate t_att >= 0.5`) and whose release time spans more
   * than 3.5 samples, runs its loop with tame coefficients.
   */
  lemma BlockTame(k: Config, s: State)
    requires Consistent(k, s)
    requires k.sampleRate >= 160.0 && k.sampleRate * s.tAtt >= 0.5 && k.sampleRate * s.tRel > 3.5
    ensures Tame(BlockOf(k, s))
    ensures 0.0 < BlockOf(k, s).wRel && 0.0 < BlockOf(k, s).wRms <= 1.0
  {
    QuotientAtMostOne(0.5, k.sampleRate * s.tAtt);
    QuotientBelowOne(3.5, k.sampleRate * s.tRel);
    QuotientAtMostOne(160.0, k.sampleRate);
    QuotientAtMostOne(5.0, k.sampleRate);
    HoldLevel(k, s);
  }

  /** The sign of a product of two positive numbers. */
  lemma ProductPositive(p: real, q: real)
    requires p > 0.0 && q > 0.0
    ensures p * q > 0.0
  {
  }

  /** The first release stage stays positive when `za1` is positive and `0 <= w_rel < 1`. */
  lemma ReleaseFastPositive(wRel: real, za1: real, hold: bool, zr1: real)
    requires 0.0 <= wRel < 1.0 && za1 > 0.0
    ensures ReleaseFast(wRel, Fin(za1), hold, zr1) > 0.0
  {
    if !(zr1 < za1) && !hold {
      assert zr1 - wRel * zr1 == (1.0 - wRel) * zr1;
      ProductPositive(1.0 - wRel, zr1);
    }
  }

  /** The second release stage stays positive when `za1` and the first stage are positive. */
  lemma ReleaseSlowPositive(wRel: real, za1: real, hold: bool, zr1: real, zr2: real)
    requires 0.0 <= wRel < 1.0 && za1 > 0.0 && zr1 > 0.0
    ensures ReleaseSlow(wRel, Fin(za1), hold, zr1, zr2) > 0.0
  {
    if !(zr2 < za1) && !hold {
      assert zr2 + wRel * (zr1 - zr2) == (1.0 - wRel) * zr2 + wRel * zr1;
      ProductPositive(1.0 - wRel, zr2);
      ProductNonNegative(wRel, zr1);
    }
  }

  /** One sample of finite input lifts a non-negative `za1` above 0, and both release stages with it. */
  lemma HealthyStep(b: Block, c: Carry, inp: seq<seq<Num>>, j: nat)
    requires Tame(b) && Shaped(inp, b.nc, j + 1)
    requires forall i :: 0 <= i < b.nc ==> inp[i][j].Fin?
    requires c.za1.Fin? && c.za1.v >= 0.0
    ensures Next(b, c, inp, j).za1.Fin? && Next(b, c, inp, j).za1.v > 0.0
    ensures Next(b, c, inp, j).zr1 > 0.0 && Next(b, c, inp, j).zr2 > 0.0
  {
    var g := Ramp(b.dg, b.wLpf, b.g1, c.g);
    var sq := SumSq(g, inp, j, b.nc);
    assert sq.Fin? && sq.v >= 0.0;
    var v := Mul(sq, Fin(b.norm));
    assert v == Fin(sq.v * b.norm);
    ProductNonNegative(sq.v, b.norm);
    var z, w := c.za1.v, b.wAtt;
    var za1 := Attack(b, c.za1, v);
    assert za1 == Fin(z + w * (b.pThr + v.v - z));
    assert z + w * (b.pThr + v.v - z) == (1.0 - w) * z + w * (b.pThr + v.v);
    ProductNonNegative(1.0 - w, z);
    ProductPositive(w, b.pThr + v.v);
    var c' := Next(b, c, inp, j);
    assert c'.za1 == za1;
    NextReleases(b, c, inp, j);
    var hold := Less(za1, Fin(b.pHold));
    ReleaseFastPositive(b.wRel, za1.v, hold, c.zr1);
    ReleaseSlowPositive(b.wRel, za1.v, hold, c'.zr1, c.zr2);
  }

  /** With finite input and a non-negative start, `za1` stays finite and the release stages positive. */
  lemma {:induction false} HealthyRun(b: Block, c0: Carry, inp: seq<seq<Num>>, n: nat)
    requires Tame(b) && Shaped(inp, b.nc, n) && AllFinite(inp, b.nc, n)
    requires c0.za1.Fin? && c0.za1.v >= 0.0
    ensures Run(b, c0, inp, n).za1.Fin? && Run(b, c0, inp, n).za1.v >= 0.0
    ensures n > 0 ==> Run(b, c0, inp, n).zr2 > 0.0
  {
    if n > 0 {
      HealthyRun(b, c0, inp, n - 1);
      assert forall i :: 0 <= i < b.nc ==> inp[i][n - 1].Fin?;
      HealthyStep(b, Run(b, c0, inp, n - 1), inp, n - 1);
    }
  }

  /**
   * With tame coefficients, finite input, a non-negative `za1` and positive
   * gains, every gain factor of the block is finite and positive: the
   * compressor neither mutes nor poisons the output.
   */
  lemma FactorsHealthy(b: Block, c0: Carry, inp: seq<seq<Num>>, n: nat)
    requires Tame(b) && Shaped(inp, b.nc, n) && AllFinite(inp, b.nc, n)
    requires c0.za1.Fin? && c0.za1.v >= 0.0 && c0.g > 0.0 && b.g1 > 0.0
    ensures forall j :: 0 <= j < n ==> FactorAt(b, c0, inp, j).Fin? && FactorAt(b, c0, inp, j).v > 0.0
  {
    forall j | 0 <= j < n
      ensures FactorAt(b, c0, inp, j).Fin? && FactorAt(b, c0, inp, j).v > 0.0
    {
      assert AllFinite(inp, b.nc, j + 1);
      HealthyRun(b, c0, inp, j + 1);
      RampsStayBetween(b, c0, inp, j + 1);
      var c := Run(b, c0, inp, j + 1);
      var e := Exponent(b.lib, c.r, c.zr2);
      assert e.Fin?;
      assert b.lib.exp(e.v) > 0.0;
      ProductPositive(c.g, b.lib.exp(e.v));
    }
  }

  /**
   * Transparency: with the gain settled at unity and the ratio at 0 (as in
   * bypass), every gain factor of a finite block is exactly 1.
   */
  lemma BypassTransparent(b: Block, c0: Carry, inp: seq<seq<Num>>, n: nat)
    requires Tame(b) && Shaped(inp, b.nc, n) && AllFinite(inp, b.nc, n)
    requires c0.za1.Fin? && c0.za1.v >= 0.0
    requires b.dg == 0.0 && c0.g == 1.0 && b.dr == 0.0 && c0.r == 0.0
    ensures forall j :: 0 <= j < n ==> FactorAt(b, c0, inp, j) == Fin(1.0)
  {
    forall j | 0 <= j < n
      ensures FactorAt(b, c0, inp, j) == Fin(1.0)
    {
      assert AllFinite(inp, b.nc, j + 1);
      HealthyRun(b, c0, inp, j + 1);
      SnapHolds(b, c0, inp, j + 1);
      var c := Run(b, c0, inp, j + 1);
      assert Exponent(b.lib, c.r, c.zr2) == Fin(0.0);
    }
  }
}
