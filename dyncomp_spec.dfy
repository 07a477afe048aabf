/**
 * The compressor engine `Dyncomp` as values: its configuration, its state,
 * what each setter does to the state, and what one call of the block
 * processor computes, sample by sample.
 */
module DyncompSpec {
  import opened Float

  /** What `Dyncomp_init` fixes for the life of the engine. */
  datatype Config = Config(
    sampleRate: real,
    nChannels: nat,
    normInput: real,  // 1 / n_channels
    wRms: real,       // coefficient of the slow level meter
    wLpf: real,       // coefficient of the gain and ratio de-click filter
    lib: Libm)

  ghost predicate WellFormed(k: Config) {
    && k.sampleRate > 0.0
    && k.nChannels >= 1
    && k.normInput == 1.0 / k.nChannels as real
    && k.wRms == 5.0 / k.sampleRate
    && k.wLpf == 160.0 / k.sampleRate
    && Lawful(k.lib)
  }

  /** The fields of `Dyncomp` that change after initialisation. */
  datatype State = State(
    ratio: real, pRat: real,
    hold: bool,
    igain: real, pIgn: real, lIgn: real,
    pThr: real, lThr: real,
    wAtt: real, wRel: real, tAtt: real, tRel: real,
    za1: real, zr1: real, zr2: real,
    newg: bool, gmax: real, gmin: real,
    rms: real)

  /** Each cached setter input agrees with the coefficient derived from it. */
  ghost predicate Consistent(k: Config, s: State) {
    && WellFormed(k)
    && s.pIgn == k.lib.exp10(0.05 * s.lIgn)
    && s.pThr == 0.5 * k.lib.exp10(0.1 * s.lThr)
    && s.tAtt > 0.0 && s.wAtt == 0.5 / (k.sampleRate * s.tAtt)
    && s.tRel > 0.0 && s.wRel == 3.5 / (k.sampleRate * s.tRel)
  }

  // ---------------------------------------------------------------------
  // Setters, reset and initialisation

  function SetRatio(s: State, r: real): State {
    s.(pRat := 0.5 * r)
  }

  function SetInputGain(k: Config, s: State, g: real): State {
    if g == s.lIgn then s else s.(lIgn := g, pIgn := k.lib.exp10(0.05 * g))
  }

  /** The threshold is kept as signal power, hence 0.5 * 10^(t/10). */
  function SetThreshold(k: Config, s: State, t: real): State {
    if t == s.lThr then s else s.(lThr := t, pThr := 0.5 * k.lib.exp10(0.1 * t))
  }

  function SetHold(s: State, hold: bool): State {
    s.(hold := hold)
  }

  function SetAttack(k: Config, s: State, a: real): State
    requires k.sampleRate > 0.0 && a > 0.0
  {
    if a == s.tAtt then s else s.(tAtt := a, wAtt := 0.5 / (k.sampleRate * a))
  }

  function SetRelease(k: Config, s: State, r: real): State
    requires k.sampleRate > 0.0 && r > 0.0
  {
    if r == s.tRel then s else s.(tRel := r, wRel := 3.5 / (k.sampleRate * r))
  }

  function Reset(s: State): State {
    s.(za1 := 0.0, zr1 := 0.0, zr2 := 0.0, rms := 0.0, gmin := 0.0, gmax := 0.0, newg := true)
  }

  /** The state `Dyncomp_init` leaves in a zero-filled `Dyncomp`. */
  function Init(k: Config): State
    requires k.sampleRate > 0.0
  {
    var s := State(
      ratio := 0.0, pRat := 0.0,
      hold := false,
      igain := 1.0, pIgn := 1.0, lIgn := 0.0,
      pThr := 0.05, lThr := -10.0,
      wAtt := 0.0, wRel := 0.0, tAtt := 0.0, tRel := 0.0,
      za1 := 0.0, zr1 := 0.0, zr2 := 0.0,
      newg := false, gmax := 0.0, gmin := 0.0,
      rms := 0.0);
    Reset(SetRelease(k, SetAttack(k, s, 0.01), 0.03))
  }

  // ---------------------------------------------------------------------
  // Gain report

  /** Gain extrema in dB and the level in dB, as `Dyncomp_get_gain` returns them. */
  datatype Report = Report(gmin: real, gmax: real, rms: real)

  /** 20 / ln(10): nepers to decibels */
  const DbPerNeper: real := 8.68589

  function GainReport(lib: Libm, s: State): Report {
    Report(
      s.gmin * DbPerNeper,
      s.gmax * DbPerNeper,
      if s.rms > 0.00000001 then 10.0 * lib.log10(2.0 * s.rms) else -80.0)
  }

  // ---------------------------------------------------------------------
  // One block of samples

  /** `nc` input channels with at least `n` samples each. */
  ghost predicate Shaped(inp: seq<seq<Num>>, nc: nat, n: nat) {
    nc <= |inp| && forall i :: 0 <= i < nc ==> n <= |inp[i]|
  }

  /** What the sample loop of `Dyncomp_process` keeps constant. */
  datatype Block = Block(
    g1: real, dg: real,  // input gain target, and 0 when the gain snapped
    r1: real, dr: real,  // ratio target, and 0 when the ratio snapped
    wRms: real, wLpf: real, wAtt: real, wRel: real,
    pThr: real, pHold: real,
    norm: real, nc: nat,
    lib: Libm)

  /** The variables the sample loop carries from one sample to the next. */
  datatype Carry = Carry(
    g: real, r: real,
    za1: Num, zr1: real, zr2: real,
    rms: Num,
    gmin: real, gmax: real)

  /** The input gain jumps to its target instead of ramping. */
  predicate GainSnaps(g: real, g1: real) {
    Abs(g1 - g) < 0.00001 || (g > 1.0 && Abs(g1 - g) < 0.001)
  }

  /** The ratio jumps to its target instead of ramping. */
  predicate RatioSnaps(r: real, r1: real) {
    Abs(r1 - r) < 0.00001
  }

  function BlockOf(k: Config, s: State): Block {
    Block(
      s.pIgn, if GainSnaps(s.igain, s.pIgn) then 0.0 else s.pIgn - s.igain,
      s.pRat, if RatioSnaps(s.ratio, s.pRat) then 0.0 else s.pRat - s.ratio,
      k.wRms, k.wLpf, s.wAtt, s.wRel,
      s.pThr, if s.hold then 2.0 * s.pThr else 0.0,
      k.normInput, k.nChannels,
      k.lib)
  }

  /** The loop variables at the first sample; a pending `newg` restarts the extrema window. */
  function StartOf(k: Config, s: State): Carry {
    Carry(
      if GainSnaps(s.igain, s.pIgn) then s.pIgn else s.igain,
      if RatioSnaps(s.ratio, s.pRat) then s.pRat else s.ratio,
      Fin(s.za1), s.zr1, s.zr2,
      Fin(s.rms),
      if s.newg then 100.0 else s.gmin,
      if s.newg then -100.0 else s.gmax)
  }

  /** Sum over the first `k` channels of the square of sample `j` scaled by `g`. */
  function SumSq(g: real, inp: seq<seq<Num>>, j: nat, k: nat): (v: Num)
    requires k <= |inp| && forall i :: 0 <= i < k ==> j < |inp[i]|
    ensures v.Fin? <==> forall i :: 0 <= i < k ==> inp[i][j].Fin?
    ensures v.Fin? ==> v.v >= 0.0
  {
    if k == 0 then Fin(0.0)
    else
      var x := Mul(Fin(g), inp[k - 1][j]);
      Add(SumSq(g, inp, j, k - 1), Mul(x, x))
  }

  /** `-r * logf (20 * zr2)`: the gain in nepers */
  function Exponent(lib: Libm, r: real, zr2: real): Num {
    Mul(Fin(-r), Logf(lib, 20.0 * zr2))
  }

  /** `g * expf (e)`: the factor applied to every channel */
  function Factor(lib: Libm, g: real, e: Num): Num {
    Mul(Fin(g), Expf(lib, e))
  }

  /** The attack filter: `za1 += w_att * (p_thr + v - za1)` */
  function Attack(b: Block, za1: Num, v: Num): Num {
    Add(za1, Mul(Fin(b.wAtt), Sub(Add(Fin(b.pThr), v), za1)))
  }

  /** The de-click ramp of the input gain or the ratio: a `w_lpf` step toward `target` unless it snapped. */
  function Ramp(d: real, wLpf: real, target: real, x: real): real {
    if d != 0.0 then x + wLpf * (target - x) else x
  }

  /** The first release stage: follow a rising `za1`, else decay unless holding. */
  function ReleaseFast(wRel: real, za1: Num, hold: bool, zr1: real): real {
    if Less(Fin(zr1), za1) then za1.v else if !hold then zr1 - wRel * zr1 else zr1
  }

  /** The second release stage: follow a rising `za1`, else move toward `zr1` unless holding. */
  function ReleaseSlow(wRel: real, za1: Num, hold: bool, zr1: real, zr2: real): real {
    if Less(Fin(zr2), za1) then za1.v else if !hold then zr2 + wRel * (zr1 - zr2) else zr2
  }

  /** One iteration of the sample loop, for sample `j`. */
  function Next(b: Block, c: Carry, inp: seq<seq<Num>>, j: nat): Carry
    requires Shaped(inp, b.nc, j + 1)
  {
    var g := Ramp(b.dg, b.wLpf, b.g1, c.g);
    var v := Mul(SumSq(g, inp, j, b.nc), Fin(b.norm));
    var rms := Add(c.rms, Mul(Fin(b.wRms), Sub(v, c.rms)));
    var za1 := Attack(b, c.za1, v);
    var hold := Less(za1, Fin(b.pHold));
    var zr1 := ReleaseFast(b.wRel, za1, hold, c.zr1);
    var zr2 := ReleaseSlow(b.wRel, za1, hold, zr1, c.zr2);
    var r := Ramp(b.dr, b.wLpf, b.r1, c.r);
    var e := Exponent(b.lib, r, zr2);
    Carry(g, r, za1, zr1, zr2, rms, Min(c.gmin, e), Max(c.gmax, e))
  }

  /** The loop variables after the first `n` samples. */
  function Run(b: Block, c0: Carry, inp: seq<seq<Num>>, n: nat): Carry
    requires Shaped(inp, b.nc, n)
  {
    if n == 0 then c0 else Next(b, Run(b, c0, inp, n - 1), inp, n - 1)
  }

  /** The value of `za1` after the attack update of sample `j`. */
  function AttackAt(b: Block, c0: Carry, inp: seq<seq<Num>>, j: nat): Num
    requires Shaped(inp, b.nc, j + 1)
  {
    Run(b, c0, inp, j + 1).za1
  }

  /** The gain exponent of sample `j`, the value folded into `gmin` and `gmax`. */
  function ExponentAt(b: Block, c0: Carry, inp: seq<seq<Num>>, j: nat): Num
    requires Shaped(inp, b.nc, j + 1)
  {
    var c := Run(b, c0, inp, j + 1);
    Exponent(b.lib, c.r, c.zr2)
  }

  /** The gain factor of sample `j`, shared by all channels. */
  function FactorAt(b: Block, c0: Carry, inp: seq<seq<Num>>, j: nat): Num
    requires Shaped(inp, b.nc, j + 1)
  {
    var c := Run(b, c0, inp, j + 1);
    Factor(b.lib, c.g, ExponentAt(b, c0, inp, j))
  }

  /** The level kept after a block: 0 if non-finite, at most 10, else lifted off zero. */
  function StoreRms(rms: Num): (r: real)
    ensures r <= 10.0 + 0.000000000001
    ensures !rms.Fin? ==> r == 0.0
    ensures rms.Fin? && rms.v >= 0.0 ==> r > 0.0
  {
    if !rms.Fin? then 0.0
    else if rms.v > 10.0 then 10.0
    else rms.v + 0.000000000001
  }

  /** The state after the block whose loop ended in `c`. */
  function WriteBack(s: State, c: Carry): State {
    var ok := c.za1.Fin?;
    s.(igain := c.g, ratio := c.r,
       za1 := if ok then c.za1.v else 0.0,
       zr1 := if ok then c.zr1 else 0.0,
       zr2 := if ok then c.zr2 else 0.0,
       newg := !ok,
       gmax := if ok then c.gmax else s.gmax,
       gmin := if ok then c.gmin else s.gmin,
       rms := StoreRms(c.rms))
  }

  /** Storing the loop state back touches none of the configured coefficients. */
  lemma WriteBackConsistent(k: Config, s: State, c: Carry)
    requires Consistent(k, s)
    ensures Consistent(k, WriteBack(s, c))
  {
  }

  /** Storing the loop state back does not depend on the window-restart flag. */
  lemma WriteBackClearsRestart(s: State, c: Carry)
    ensures WriteBack(s.(newg := false), c) == WriteBack(s, c)
  {
  }

  /** The state after `Dyncomp_process` of `n` samples of `inp`. */
  function AfterBlock(k: Config, s: State, inp: seq<seq<Num>>, n: nat): State
    requires Shaped(inp, k.nChannels, n)
  {
    WriteBack(s, Run(BlockOf(k, s), StartOf(k, s), inp, n))
  }
}
