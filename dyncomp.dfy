/**
 * The compressor engine `Dyncomp`: a single-owner object whose setters and
 * block processor update its fields in place. Each method is specified by
 * the function of module DyncompSpec that computes its new state.
 */
module Engine {
  import opened Float
  import opened DyncompSpec
  import DyncompProofs

  /** `nc` distinct output buffers with room for `n` samples each. */
  ghost predicate OutShaped(out: seq<array<Num>>, nc: nat, n: nat) {
    && nc <= |out|
    && (forall i :: 0 <= i < nc ==> n <= out[i].Length)
    && (forall i, i' :: 0 <= i < i' < nc ==> out[i] != out[i'])
  }

  class Dyncomp {
    const sampleRate: real
    const nChannels: nat
    const normInput: real
    const wRms: real
    const wLpf: real
    const lib: Libm

    var ratio: real
    var pRat: real
    var hold: bool
    var igain: real
    var pIgn: real
    var lIgn: real
    var pThr: real
    var lThr: real
    var wAtt: real
    var wRel: real
    var tAtt: real
    var tRel: real
    var za1: real
    var zr1: real
    var zr2: real
    var newg: bool
    var gmax: real
    var gmin: real
    var rms: real

    function Cfg(): Config {
      Config(sampleRate, nChannels, normInput, wRms, wLpf, lib)
    }

    function Snapshot(): State
      reads this
    {
      State(ratio, pRat, hold, igain, pIgn, lIgn, pThr, lThr, wAtt, wRel, tAtt, tRel,
            za1, zr1, zr2, newg, gmax, gmin, rms)
    }

    ghost predicate Valid()
      reads this
    {
      Consistent(Cfg(), Snapshot())
    }

    /** `Dyncomp_init` on a zero-filled engine. */
    constructor (rate: real, nc: nat, lib: Libm)
      requires rate > 0.0 && nc >= 1 && Lawful(lib)
      ensures sampleRate == rate && nChannels == nc && this.lib == lib
      ensures WellFormed(Cfg())
      ensures Snapshot() == Init(Cfg())
      ensures Valid()
    {
      sampleRate := rate;
      nChannels := nc;
      normInput := 1.0 / nc as real;
      this.lib := lib;
      wRms := 5.0 / rate;
      wLpf := 160.0 / rate;
      ratio, pRat := 0.0, 0.0;
      igain, pIgn, lIgn := 1.0, 1.0, 0.0;
      pThr, lThr := 0.05, -10.0;
      hold := false;
      tAtt, tRel := 0.0, 0.0;
      wAtt, wRel := 0.0, 0.0;
      za1, zr1, zr2 := 0.0, 0.0, 0.0;
      newg, gmax, gmin, rms := false, 0.0, 0.0, 0.0;
      new;
      SetAttack(0.01);
      SetRelease(0.03);
      Reset();
    }

    method Reset()
      modifies this
      ensures Snapshot() == DyncompSpec.Reset(old(Snapshot()))
      ensures old(Valid()) ==> Valid()
    {
      za1 := 0.0;
      zr1 := 0.0;
      zr2 := 0.0;
      rms := 0.0;
      gmin := 0.0;
      gmax := 0.0;
      newg := true;
      // the coefficients are untouched
      assert ratio == old(ratio) && pRat == old(pRat) && hold == old(hold) && igain == old(igain) && pIgn == old(pIgn) && lIgn == old(lIgn);
      assert pThr == old(pThr) && lThr == old(lThr) && wAtt == old(wAtt) && wRel == old(wRel) && tAtt == old(tAtt) && tRel == old(tRel);
      if old(Valid()) {
        DyncompProofs.PlainSettersKeepConsistent(Cfg(), old(Snapshot()), ratio, hold);
      }
    }

    method SetRatio(r: real)
      modifies this
      ensures Snapshot() == DyncompSpec.SetRatio(old(Snapshot()), r)
      ensures old(Valid()) ==> Valid()
    {
      if Valid() {
        DyncompProofs.PlainSettersKeepConsistent(Cfg(), Snapshot(), r, hold);
      }
      pRat := 0.5 * r;
    }

    method SetInputGain(g: real)
      modifies this
      ensures Snapshot() == DyncompSpec.SetInputGain(Cfg(), old(Snapshot()), g)
      ensures old(Valid()) ==> Valid()
    {
      if Valid() {
        DyncompProofs.InputGainKeepsConsistent(Cfg(), Snapshot(), g);
      }
      if g == lIgn {
        return;
      }
      lIgn := g;
      pIgn := lib.exp10(0.05 * g);
    }

    method SetThreshold(t: real)
      modifies this
      ensures Snapshot() == DyncompSpec.SetThreshold(Cfg(), old(Snapshot()), t)
      ensures old(Valid()) ==> Valid()
    {
      if Valid() {
        DyncompProofs.ThresholdKeepsConsistent(Cfg(), Snapshot(), t);
      }
      if t == lThr {
        return;
      }
      lThr := t;
      pThr := 0.5 * lib.exp10(0.1 * t);
    }

    method SetHold(hold: bool)
      modifies this
      ensures Snapshot() == DyncompSpec.SetHold(old(Snapshot()), hold)
      ensures old(Valid()) ==> Valid()
    {
      if Valid() {
        DyncompProofs.PlainSettersKeepConsistent(Cfg(), Snapshot(), ratio, hold);
      }
      this.hold := hold;
    }

    method SetAttack(a: real)
      requires sampleRate > 0.0 && a > 0.0
      modifies this
      ensures Snapshot() == DyncompSpec.SetAttack(Cfg(), old(Snapshot()), a)
      ensures old(Valid()) ==> Valid()
    {
      if Valid() {
        DyncompProofs.AttackKeepsConsistent(Cfg(), Snapshot(), a);
      }
      if a == tAtt {
        return;
      }
      tAtt := a;
      wAtt := 0.5 / (sampleRate * a);
    }

    method SetRelease(r: real)
      requires sampleRate > 0.0 && r > 0.0
      modifies this
      ensures Snapshot() == DyncompSpec.SetRelease(Cfg(), old(Snapshot()), r)
      ensures old(Valid()) ==> Valid()
    {
      if Valid() {
        DyncompProofs.ReleaseKeepsConsistent(Cfg(), Snapshot(), r);
      }
      if r == tRel {
        return;
      }
      tRel := r;
      wRel := 3.5 / (sampleRate * r);
    }

    /** `Dyncomp_get_gain`: report the window in dB and start a new one. */
    method GetGain() returns (gminDb: real, gmaxDb: real, rmsDb: real)
      modifies this
      ensures Report(gminDb, gmaxDb, rmsDb) == GainReport(lib, old(Snapshot()))
      ensures rmsDb == -80.0 <== old(rms) <= 0.00000001
      ensures Snapshot() == old(Snapshot()).(newg := true)
      ensures old(Valid()) ==> Valid()
    {
      gminDb := gmin * DbPerNeper;
      gmaxDb := gmax * DbPerNeper;
      if rms > 0.00000001 {
        rmsDb := 10.0 * lib.log10(2.0 * rms);
      } else {
        rmsDb := -80.0;
      }
      newg := true;
    }

    /** The sum over the channels of the squared, gain-scaled sample `j`. */
    static method KeyPower(g: real, inp: seq<seq<Num>>, j: nat, nc: nat) returns (v: Num)
      requires Shaped(inp, nc, j + 1)
      ensures v == SumSq(g, inp, j, nc)
    {
      v := Fin(0.0);
      var i := 0;
      while i < nc
        invariant 0 <= i <= nc
        invariant v == SumSq(g, inp, j, i)
      {
        var x := Mul(Fin(g), inp[i][j]);
        v := Add(v, Mul(x, x));
        i := i + 1;
      }
    }

    /** Write `factor * inp[i][j]` to `out[i][j]` for every channel `i`. */
    static method ApplyGain(factor: Num, inp: seq<seq<Num>>, out: seq<array<Num>>, j: nat, nc: nat)
      requires Shaped(inp, nc, j + 1) && OutShaped(out, nc, j + 1)
      modifies set i | 0 <= i < nc :: out[i]
      ensures forall i, j' :: 0 <= i < nc && 0 <= j' < out[i].Length ==>
                out[i][j'] == if j' == j then Mul(factor, inp[i][j]) else old(out[i][j'])
    {
      var i := 0;
      while i < nc
        invariant 0 <= i <= nc
        invariant forall i', j' :: 0 <= i' < nc && 0 <= j' < out[i'].Length ==>
                    out[i'][j'] == if j' == j && i' < i then Mul(factor, inp[i'][j]) else old(out[i'][j'])
      {
        out[i][j] := Mul(factor, inp[i][j]);
        i := i + 1;
      }
    }

    /** The two-stage release cascade with its hold freeze, for one sample. */
    static method ReleaseStep(wRel: real, za1: Num, holding: bool, zr1: real, zr2: real) returns (zr1': real, zr2': real)
      ensures zr1' == ReleaseFast(wRel, za1, holding, zr1)
      ensures zr2' == ReleaseSlow(wRel, za1, holding, zr1', zr2)
    {
      zr1', zr2' := zr1, zr2;
      if Less(Fin(zr1'), za1) {
        zr1' := za1.v;
      } else if !holding {
        zr1' := zr1' - wRel * zr1';
      }

      if Less(Fin(zr2'), za1) {
        zr2' := za1.v;
      } else if !holding {
        zr2' := zr2' + wRel * (zr1' - zr2');
      }
    }

    /**
     * One iteration of the sample loop of `Dyncomp_process`: the loop
     * variables after sample `j`, and the gain factor of that sample.
     */
    static method SampleStep(b: Block, c: Carry, inp: seq<seq<Num>>, j: nat) returns (c': Carry, factor: Num)
      requires Shaped(inp, b.nc, j + 1)
      ensures c' == Next(b, c, inp, j)
      ensures factor == Factor(b.lib, c'.g, Exponent(b.lib, c'.r, c'.zr2))
    {
      var g, r, za1, zr1, zr2, rms, gmin, gmax := c.g, c.r, c.za1, c.zr1, c.zr2, c.rms, c.gmin, c.gmax;

      // update input gain
      if b.dg != 0.0 {
        g := g + b.wLpf * (b.g1 - g);
      }
      assert g == Ramp(b.dg, b.wLpf, b.g1, c.g);

      // input/key power, normalised by the channel count
      var v := KeyPower(g, inp, j, b.nc);
      v := Mul(v, Fin(b.norm));

      // slow moving level for the meter
      rms := Add(rms, Mul(Fin(b.wRms), Sub(v, rms)));

      // signal power relative to threshold, low-passed by the attack time
      za1 := Add(za1, Mul(Fin(b.wAtt), Sub(Add(Fin(b.pThr), v), za1)));

      // hold release
      var holding := Less(za1, Fin(b.pHold));

      zr1, zr2 := ReleaseStep(b.wRel, za1, holding, zr1, zr2);

      // update ratio
      if b.dr != 0.0 {
        r := r + b.wLpf * (b.r1 - r);
      }
      assert r == Ramp(b.dr, b.wLpf, b.r1, c.r);

      var pg := Mul(Fin(-r), Logf(b.lib, 20.0 * zr2));

      // min/max gain in nepers for the report
      gmax := Max(gmax, pg);
      gmin := Min(gmin, pg);

      factor := Mul(Fin(g), Expf(b.lib, pg));
      c' := Carry(g, r, za1, zr1, zr2, rms, gmin, gmax);
    }

    /** The copy-back at the end of `Dyncomp_process`, with its recovery from a non-finite `za1`. */
    method StoreBack(c: Carry)
      requires !newg
      modifies this
      ensures Snapshot() == WriteBack(old(Snapshot()), c)
    {
      igain := c.g;
      ratio := c.r;

      if !c.za1.Fin? {
        // restart the filters and the extrema window next block
        za1, zr1, zr2, newg := 0.0, 0.0, 0.0, true;
      } else {
        za1, zr1, zr2, gmax, gmin := c.za1.v, c.zr1, c.zr2, c.gmax, c.gmin;
      }
      // the coefficients are untouched
      assert pRat == old(pRat) && hold == old(hold) && pIgn == old(pIgn) && lIgn == old(lIgn);
      assert pThr == old(pThr) && lThr == old(lThr) && wAtt == old(wAtt) && wRel == old(wRel) && tAtt == old(tAtt) && tRel == old(tRel);

      rms := StoreRms(c.rms);
      // the filter state and extrema window, field by field
      ghost var ok := c.za1.Fin?;
      assert za1 == (if ok then c.za1.v else 0.0) && zr1 == (if ok then c.zr1 else 0.0) && zr2 == (if ok then c.zr2 else 0.0);
      assert newg == !ok && gmax == (if ok then c.gmax else old(gmax)) && gmin == (if ok then c.gmin else old(gmin));
    }

    /**
     * The set-up of `Dyncomp_process`: restart the extrema window if asked,
     * snap or keep ramping gain and ratio, and localize the loop's constants.
     */
    method Begin() returns (b: Block, c: Carry)
      modifies this
      ensures b == BlockOf(Cfg(), old(Snapshot())) && c == StartOf(Cfg(), old(Snapshot()))
      ensures Snapshot() == old(Snapshot()).(newg := false)
    {
      var gmin, gmax;
      // reset min/max gain report
      if newg {
        gmax := -100.0;
        gmin := 100.0;
        newg := false;
      } else {
        gmax := this.gmax;
        gmin := this.gmin;
      }

      // interpolate input gain
      var g := igain;
      var g1 := pIgn;
      var dg := g1 - g;
      if Abs(dg) < 0.00001 || (g > 1.0 && Abs(dg) < 0.001) {
        g := g1;
        dg := 0.0;
      }

      // interpolate ratio
      var r := ratio;
      var r1 := pRat;
      var dr := r1 - r;
      if Abs(dr) < 0.00001 {
        r := r1;
        dr := 0.0;
      }

      // localize variables
      b := Block(g1, dg, r1, dr, wRms, wLpf, wAtt, wRel, pThr, if hold then 2.0 * pThr else 0.0,
                 normInput, nChannels, lib);
      c := Carry(g, r, Fin(za1), zr1, zr2, Fin(rms), gmin, gmax);
    }

    /**
     * The sample loop of `Dyncomp_process`: run `n` samples from the loop
     * state `c0`, writing each gained sample to every output channel.
     */
    static method Loop(b: Block, c0: Carry, n: nat, inp: seq<seq<Num>>, out: seq<array<Num>>) returns (c: Carry)
      requires Shaped(inp, b.nc, n) && OutShaped(out, b.nc, n)
      modifies set i | 0 <= i < b.nc :: out[i]
      ensures c == Run(b, c0, inp, n)
      ensures forall i, j :: 0 <= i < b.nc && 0 <= j < n ==> out[i][j] == Mul(FactorAt(b, c0, inp, j), inp[i][j])
      ensures forall i, j :: 0 <= i < b.nc && n <= j < out[i].Length ==> out[i][j] == old(out[i][j])
    {
      c := c0;
      var j := 0;
      while j < n
        invariant 0 <= j <= n
        invariant c == Run(b, c0, inp, j)
        invariant forall i, j' :: 0 <= i < b.nc && 0 <= j' < j ==> out[i][j'] == Mul(FactorAt(b, c0, inp, j'), inp[i][j'])
        invariant forall i, j' :: 0 <= i < b.nc && j <= j' < out[i].Length ==> out[i][j'] == old(out[i][j'])
      {
        var factor;
        c, factor := SampleStep(b, c, inp, j);
        assert factor == FactorAt(b, c0, inp, j);

        // apply the gain factor to all channels
        ApplyGain(factor, inp, out, j, b.nc);
        j := j + 1;
      }
    }

    /**
     * `Dyncomp_process`: run `n` samples of the `nChannels` inputs through the
     * compressor into the outputs, and store the loop state back.
     */
    method Process(n: nat, inp: seq<seq<Num>>, out: seq<array<Num>>)
      requires Valid()
      requires Shaped(inp, nChannels, n) && OutShaped(out, nChannels, n)
      modifies this, set i | 0 <= i < nChannels :: out[i]
      ensures Valid()
      ensures Snapshot() == AfterBlock(Cfg(), old(Snapshot()), inp, n)
      ensures forall i, j :: 0 <= i < nChannels && 0 <= j < n ==>
                out[i][j] == Mul(FactorAt(BlockOf(Cfg(), old(Snapshot())), StartOf(Cfg(), old(Snapshot())), inp, j), inp[i][j])
      ensures forall i, j :: 0 <= i < nChannels && n <= j < out[i].Length ==> out[i][j] == old(out[i][j])
    {
      ghost var s0 := Snapshot();
      var b, c := Begin();
      assert b == BlockOf(Cfg(), s0) && c == StartOf(Cfg(), s0);

      c := Loop(b, c, n, inp, out);
      assert c == Run(BlockOf(Cfg(), s0), StartOf(Cfg(), s0), inp, n);

      // copy back variables
      StoreBack(c);
      WriteBackClearsRestart(s0, c);
      WriteBackConsistent(Cfg(), s0, c);
    }
  }
}
