/** The `adcHack` class: a software successive-approximation ADC built from the PWM1
    peripheral (as a DAC, through an RC filter) and a comparator wired to a GPIO input.

    The configuration is the resolution `res` and the settling delay `sett`; the peripheral
    calls the object makes are recorded in the ghost `trace`, from which the PWM's current
    frequency, count range, duty count and mode follow (`Peripherals.PwmRun`). */
module SoftAdc {
  import opened Peripherals
  import opened Sar

  /** The GPIO the comparator is attached to when no pin is given. */
  const DefaultPin: UInt32 := 4

  /** Bits a conversion tries: 8 for `ADC_RES_8`, 10 for every other value, since both
      `adcRead` and the resolution constructor test only for `ADC_RES_8`. */
  function Bits(res: int): nat
  {
    if res == AdcHack.ADC_RES_8 then 8 else 10
  }

  /** The largest code a conversion at resolution `res` can return. */
  function MaxCode(res: int): nat
  {
    if res == AdcHack.ADC_RES_8 then 255 else 1023
  }

  /** The PWM frequency of the bundle for `res`, in Hz. */
  function FrequencyFor(res: int): nat
  {
    if res == AdcHack.ADC_RES_8 then 37500 else 9370
  }

  /** The four PWM calls a constructor makes for resolution `res`: frequency, count range,
      initial duty count, mode. The count range is 2^bits, one count per code, and the
      initial duty count is the first trial count of a conversion (the midscale). */
  function Bundle(res: int): (b: seq<Event>)
    ensures |b| == 4
    ensures b[0] == SetFrequency(FrequencyFor(res))
    ensures b[1] == SetCounts(MaxCode(res) + 1) && MaxCode(res) + 1 == Pow2(Bits(res))
    ensures b[2] == SetDutyCycleCount(Pow2(Bits(res) - 1))
    ensures b[3] == SetMode(PwmMode)
  {
    Pow2Values();
    if res == AdcHack.ADC_RES_8 then
      [SetFrequency(37500), SetCounts(256), SetDutyCycleCount(128), SetMode(PwmMode)]
    else
      [SetFrequency(9370), SetCounts(1024), SetDutyCycleCount(512), SetMode(PwmMode)]
  }

  /** The PWM runs with the frequency, count range and mode of the bundle for `res`. */
  ghost predicate BundleApplied(t: seq<Event>, res: int)
  {
    var c := PwmRun(Unconfigured, t);
    c.frequency == Some(FrequencyFor(res)) && c.counts == Some(Pow2(Bits(res))) && c.mode == Some(PwmMode)
  }

  /** Applying the bundle for `res` overrides all four PWM settings, whatever they were. */
  lemma BundleSettings(c: PwmConfig, res: int)
    ensures PwmRun(c, Bundle(res)) == PwmConfig(Some(FrequencyFor(res)), Some(Pow2(Bits(res))),
                                                 Some(Pow2(Bits(res) - 1)), Some(PwmMode))
  {
    var b := Bundle(res);
    assert b[1..][1..][1..][1..] == [];
    assert PwmRun(c, b) == PwmRun(Apply(c, b[0]), b[1..]);
    assert PwmRun(Apply(c, b[0]), b[1..]) == PwmRun(Apply(Apply(c, b[0]), b[1]), b[1..][1..]);
    assert PwmRun(Apply(Apply(c, b[0]), b[1]), b[1..][1..])
        == PwmRun(Apply(Apply(Apply(c, b[0]), b[1]), b[2]), b[1..][1..][1..]);
  }

  /** Whatever came before, a trace that ends with the bundle for `res` (and then only
      conversions) leaves the PWM configured for `res`. */
  lemma BundleThenConversions(t: seq<Event>, res: int, u: seq<Event>)
    requires forall k :: 0 <= k < |u| ==> u[k].SetDutyCycleCount? || u[k].SleepUs? || u[k].ReadPin?
    ensures BundleApplied(t + Bundle(res) + u, res)
  {
    PwmRunAppend(Unconfigured, t, Bundle(res));
    BundleSettings(PwmRun(Unconfigured, t), res);
    PwmRunAppend(Unconfigured, t + Bundle(res), u);
    PwmRunKeepsBundle(PwmRun(Unconfigured, t + Bundle(res)), u);
  }

  /** The bundle of one resolution never fits a resolution of another width. */
  lemma BundleMismatch(t: seq<Event>, applied: int, res: int)
    requires Bits(applied) != Bits(res)
    ensures BundleApplied(t + Bundle(applied), applied)
    ensures !BundleApplied(t + Bundle(applied), res)
  {
    PwmRunAppend(Unconfigured, t, Bundle(applied));
    BundleSettings(PwmRun(Unconfigured, t), applied);
  }

  /** A conversion leaves the PWM's frequency, count range and mode as they were. */
  lemma ConversionKeepsBundle(t: seq<Event>, cmp: Comparator, n: nat, sett: UInt32, res: int)
    ensures PwmRun(Unconfigured, t + Steps(cmp, 0, n, sett)).frequency == PwmRun(Unconfigured, t).frequency
    ensures PwmRun(Unconfigured, t + Steps(cmp, 0, n, sett)).counts == PwmRun(Unconfigured, t).counts
    ensures PwmRun(Unconfigured, t + Steps(cmp, 0, n, sett)).mode == PwmRun(Unconfigured, t).mode
    ensures BundleApplied(t + Steps(cmp, 0, n, sett), res) == BundleApplied(t, res)
  {
    var u := Steps(cmp, 0, n, sett);
    StepsOnlyWriteDuty(cmp, 0, n, sett);
    PwmRunAppend(Unconfigured, t, u);
    PwmRunKeepsBundle(PwmRun(Unconfigured, t), u);
  }

  // ----- A conversion, in the terms of the resolution -----

  /** An 8-bit conversion returns a code in [0, 255]; any other resolution one in [0, 1023]. */
  lemma ConversionRange(res: int, cmp: Comparator)
    ensures Approximate(cmp, 0, Bits(res)) <= MaxCode(res)
  {
    ApproximateRange(cmp, 0, Bits(res));
    Pow2Values();
  }

  /** A comparator that never reads 0 gives the largest code (255 or 1023). */
  lemma ConversionAllHigh(res: int, cmp: Comparator)
    requires forall t: nat :: cmp(t) != 0
    ensures Approximate(cmp, 0, Bits(res)) == MaxCode(res)
  {
    ApproximateAllHigh(cmp, 0, Bits(res));
    Pow2Values();
  }

  /** A comparator that always reads 0 gives code 0. */
  lemma ConversionAllLow(res: int, cmp: Comparator)
    requires forall t: nat :: cmp(t) == 0
    ensures Approximate(cmp, 0, Bits(res)) == 0
  {
    ApproximateAllLow(cmp, 0, Bits(res));
  }

  /** Against a comparator that reads nonzero exactly when the trial count is at most T,
      the code is min(T, MaxCode(res)). */
  lemma ConversionThreshold(res: int, cmp: Comparator, threshold: nat)
    requires forall t: nat :: cmp(t) != 0 <==> t <= threshold
    ensures Approximate(cmp, 0, Bits(res)) == Min(threshold, MaxCode(res))
  {
    ApproximateThreshold(cmp, threshold, 0, Bits(res));
    Pow2Values();
  }

  /** A conversion makes 8 (for `ADC_RES_8`) or 10 duty-count writes, the k-th being a count
      in [1, MaxCode(res)] whose bit (bits-1-k) is set and whose lower bits are clear, each
      followed by one wait of `sett` and one read of pin 4. */
  lemma ConversionCalls(res: int, cmp: Comparator, sett: UInt32)
    ensures |Steps(cmp, 0, Bits(res), sett)| == 3 * Bits(res)
    ensures |DutyWrites(Steps(cmp, 0, Bits(res), sett))| == Bits(res)
    ensures |PinReads(Steps(cmp, 0, Bits(res), sett))| == Bits(res)
    ensures |Trials(cmp, 0, Bits(res))| == Bits(res)
    ensures forall k :: 0 <= k < Bits(res) ==>
              var trial := Trials(cmp, 0, Bits(res))[k];
              Steps(cmp, 0, Bits(res), sett)[3 * k] == SetDutyCycleCount(trial)
              && Steps(cmp, 0, Bits(res), sett)[3 * k + 1] == SleepUs(sett)
              && Steps(cmp, 0, Bits(res), sett)[3 * k + 2] == ReadPin(SampledPin, cmp(trial))
              && Bit(trial, Bits(res) - 1 - k) && LowBitsClear(trial, Bits(res) - 1 - k)
              && 0 < trial <= MaxCode(res)
  {
    var n := Bits(res);
    ZeroBitsClear(n);
    TrialsRange(cmp, 0, n);
    Pow2Values();
    StepsShape(cmp, 0, n, sett);
    StepsWritesAndReads(cmp, 0, n, sett);
    TrialBits(cmp, 0, n);
  }

  /** The resolution identifiers are distinct; the error code of `setResolution` differs from
      its success code 0 but has the value of `ADC_RES_10`. */
  lemma ResolutionCodes()
    ensures AdcHack.ADC_RES_8 == 0 && AdcHack.ADC_RES_10 == 1 && AdcHack.ADC_RES_8 != AdcHack.ADC_RES_10
    ensures AdcHack.ERR_RES == 1 && AdcHack.ERR_RES != 0 && AdcHack.ERR_RES == AdcHack.ADC_RES_10
  {
  }

  class AdcHack {
    static const ADC_RES_8: Int32 := 0
    static const ADC_RES_10: Int32 := 1
    static const ERR_RES: Int32 := 1

    var res: Int32
    var sett: UInt32
    /** The calls made on `inFromComparator` and `dac`, and the waits, oldest first. */
    ghost var trace: seq<Event>

    /** The PWM's frequency, count range and mode are those of the bundle for `res`. */
    ghost predicate DacConsistent()
      reads this
    {
      BundleApplied(trace, res)
    }

    /** 10-bit, 60 µs, comparator on GPIO4. */
    constructor ()
      ensures res == ADC_RES_10 && sett == 60
      ensures trace == [SetPinDir(DefaultPin, Input),
                        SetFrequency(9370), SetCounts(1024), SetDutyCycleCount(512), SetMode(PwmMode)]
      ensures DacConsistent()
    {
      trace := [SetPinDir(DefaultPin, Input)];
      res := ADC_RES_10;
      sett := 60;
      new;
      trace := trace + [SetFrequency(9370), SetCounts(1024), SetDutyCycleCount(512), SetMode(PwmMode)];
      BundleThenConversions([SetPinDir(DefaultPin, Input)], ADC_RES_10, []);
      assert trace == [SetPinDir(DefaultPin, Input)] + Bundle(ADC_RES_10) + [];
    }

    /** The default configuration, with the comparator on `pinnum`. */
    constructor WithPin(pinnum: UInt32)
      ensures res == ADC_RES_10 && sett == 60
      ensures trace == [SetPinDir(pinnum, Input),
                        SetFrequency(9370), SetCounts(1024), SetDutyCycleCount(512), SetMode(PwmMode)]
      ensures DacConsistent()
    {
      trace := [SetPinDir(pinnum, Input)];
      res := ADC_RES_10;
      sett := 60;
      new;
      trace := trace + [SetFrequency(9370), SetCounts(1024), SetDutyCycleCount(512), SetMode(PwmMode)];
      BundleThenConversions([SetPinDir(pinnum, Input)], ADC_RES_10, []);
      assert trace == [SetPinDir(pinnum, Input)] + Bundle(ADC_RES_10) + [];
    }

    /** Comparator on `pinnum`, resolution stored as given (not validated), 69 µs; the 8-bit
        bundle exactly when `resolution == ADC_RES_8`, the 10-bit bundle otherwise. */
    constructor WithPinAndResolution(pinnum: UInt32, resolution: Int32)
      ensures res == resolution && sett == 69
      ensures resolution == ADC_RES_8 ==>
                trace == [SetPinDir(pinnum, Input),
                          SetFrequency(37500), SetCounts(256), SetDutyCycleCount(128), SetMode(PwmMode)]
      ensures resolution != ADC_RES_8 ==>
                trace == [SetPinDir(pinnum, Input),
                          SetFrequency(9370), SetCounts(1024), SetDutyCycleCount(512), SetMode(PwmMode)]
      ensures DacConsistent()
    {
      trace := [SetPinDir(pinnum, Input)];
      res := resolution;
      sett := 69;
      new;
      if res == ADC_RES_8 {
        trace := trace + [SetFrequency(37500), SetCounts(256), SetDutyCycleCount(128), SetMode(PwmMode)];
      } else {
        trace := trace + [SetFrequency(9370), SetCounts(1024), SetDutyCycleCount(512), SetMode(PwmMode)];
      }
      BundleThenConversions([SetPinDir(pinnum, Input)], resolution, []);
      assert trace == [SetPinDir(pinnum, Input)] + Bundle(resolution) + [];
    }

    /** One conversion: bits 7 (for `ADC_RES_8`) or 9 (otherwise) down to 0, each tried by
        writing the trial count, waiting `sett` µs and reading pin 4. The code is the one
        `Approximate` specifies, and the calls are exactly `Steps`. */
    method AdcRead(comparator: Comparator) returns (accum: UInt32)
      modifies this`trace
      ensures accum == Approximate(comparator, 0, Bits(res))
      ensures accum <= MaxCode(res)
      ensures trace == old(trace) + Steps(comparator, 0, Bits(res), sett)
      ensures DacConsistent() == old(DacConsistent())
    {
      var code: nat;
      if res == ADC_RES_8 {
        code := SuccessiveApproximation(comparator, 8);
      } else {
        code := SuccessiveApproximation(comparator, 10);
      }
      ConversionRange(res, comparator);
      accum := code;
      ConversionKeepsBundle(old(trace), comparator, Bits(res), sett, res);
    }

    /** The bit loop of `adcRead` over bits n-1 down to 0 (the source spells it out twice,
        for n = 8 and n = 10, starting at bit 7 or 9). */
    method SuccessiveApproximation(comparator: Comparator, n: nat) returns (accum: nat)
      modifies this`trace
      ensures accum == Approximate(comparator, 0, n)
      ensures trace == old(trace) + Steps(comparator, 0, n, sett)
    {
      accum := 0;
      ghost var code, calls := Approximate(comparator, 0, n), old(trace) + Steps(comparator, 0, n, sett);
      var i: int := n - 1;
      while i >= 0
        invariant -1 <= i < n
        invariant Approximate(comparator, accum, i + 1) == code
        invariant trace + Steps(comparator, accum, i + 1, sett) == calls
      {
        StepExtends(comparator, accum, i, sett, trace, calls);
        accum := TryBit(comparator, accum, i);
        i := i - 1;
      }
      assert trace + [] == trace;
    }

    /** One pass of that loop: set bit i in the accumulator, write the accumulator as the duty
        count, wait `sett` µs, read pin 4, and clear the bit again if the read gave 0. */
    method TryBit(comparator: Comparator, accum: nat, i: nat) returns (next: nat)
      modifies this`trace
      ensures next == Next(comparator, accum, i)
      ensures trace == old(trace) + [SetDutyCycleCount(accum + Pow2(i)), SleepUs(sett),
                                     ReadPin(SampledPin, comparator(accum + Pow2(i)))]
    {
      next := accum + Pow2(i);
      trace := trace + [SetDutyCycleCount(next)];
      trace := trace + [SleepUs(sett)];
      var level := comparator(next);
      trace := trace + [ReadPin(SampledPin, level)];
      if level == 0 {
        next := next - Pow2(i);
      }
    }

    /** Stores a recognised resolution and returns 0; any other value returns `ERR_RES` and
        keeps the old one. Either way the delay and the PWM are left as they were: the bundle
        for the new resolution is not applied. */
    method SetResolution(resolution: Int32) returns (retVal: Int32)
      modifies this`res
      ensures resolution == ADC_RES_8 || resolution == ADC_RES_10 ==> retVal == 0 && res == resolution
      ensures resolution != ADC_RES_8 && resolution != ADC_RES_10 ==> retVal == ERR_RES && res == old(res)
      ensures sett == old(sett) && trace == old(trace)
    {
      retVal := 0;
      if resolution == ADC_RES_8 || resolution == ADC_RES_10 {
        res := resolution;
      } else {
        retVal := ERR_RES;
      }
    }

    /** `setResolution` as its use evidently intends: a recognised resolution is stored and its
        PWM bundle applied, so the PWM always matches the resolution afterwards. */
    method SetResolutionAndReconfigure(resolution: Int32) returns (retVal: Int32)
      modifies this`res, this`trace
      ensures resolution == ADC_RES_8 || resolution == ADC_RES_10 ==>
                retVal == 0 && res == resolution && trace == old(trace) + Bundle(resolution) && DacConsistent()
      ensures resolution != ADC_RES_8 && resolution != ADC_RES_10 ==>
                retVal == ERR_RES && res == old(res) && trace == old(trace)
      ensures old(DacConsistent()) ==> DacConsistent()
      ensures sett == old(sett)
    {
      retVal := 0;
      if resolution == ADC_RES_8 || resolution == ADC_RES_10 {
        res := resolution;
        trace := trace + Bundle(resolution);
        BundleThenConversions(old(trace), resolution, []);
        assert trace == old(trace) + Bundle(resolution) + [];
      } else {
        retVal := ERR_RES;
      }
    }

    /** Any delay, 0 included, is stored as given; nothing else changes. */
    method SetSettlingTimeUs(settle: UInt32)
      modifies this`sett
      ensures sett == settle && GetSettlingTime() == settle
      ensures res == old(res) && trace == old(trace)
    {
      sett := settle;
    }

    /** The settling delay in µs (a const member). */
    function GetSettlingTime(): (t: UInt32)
      reads this`sett
      ensures t == sett
    {
      sett
    }

    /** The stored resolution (a const member). */
    function GetAdcResolution(): (r: Int32)
      reads this`res
      ensures r == res
    {
      res
    }
  }

  /** Constructing at 10 bits and then switching to 8 bits with `setResolution` succeeds,
      yet leaves the PWM at 1024 counts and 9370 Hz while conversions now write counts of
      at most 255 (`TrialsRange`): the first trial, 128, is an eighth of the range instead
      of its middle. */
  method StaleBundleScenario() returns (adc: AdcHack, code: Int32)
    ensures fresh(adc) && code == 0 && adc.res == AdcHack.ADC_RES_8
    ensures PwmRun(Unconfigured, adc.trace).counts == Some(1024)
    ensures PwmRun(Unconfigured, adc.trace).frequency == Some(9370)
    ensures !adc.DacConsistent()
  {
    adc := new AdcHack();
    code := adc.SetResolution(AdcHack.ADC_RES_8);
    BundleMismatch([SetPinDir(DefaultPin, Input)], AdcHack.ADC_RES_10, AdcHack.ADC_RES_8);
    BundleSettings(PwmRun(Unconfigured, [SetPinDir(DefaultPin, Input)]), AdcHack.ADC_RES_10);
    PwmRunAppend(Unconfigured, [SetPinDir(DefaultPin, Input)], Bundle(AdcHack.ADC_RES_10));
    assert adc.trace == [SetPinDir(DefaultPin, Input)] + Bundle(AdcHack.ADC_RES_10);
  }
}
