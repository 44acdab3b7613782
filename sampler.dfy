/** The light sampler: reduction of the ADC buffer to a reading (AvgADCValue)
    and the initialise/sample gate over `isADCInitialized` (InitLightIntensityADC,
    LightIntensityADC), stated as functions of the gate flag and the board. */
module Sampler {
  import opened SenseTypes

  /** Plain integer sum of the samples, with no width limit. */
  function Sum(s: seq<i16>): int {
    if s == [] then 0 else Sum(s[..|s| - 1]) + s[|s| - 1]
  }

  /** The u32 accumulator of AvgADCValue after adding every sample in order;
      each i16 converts to u32 and the addition wraps. */
  function AccumulateU32(s: seq<i16>): (r: u32)
    ensures r == Sum(s) % U32_LIMIT
  {
    if s == [] then 0
    else
      var prev := AccumulateU32(s[..|s| - 1]);
      var x := s[|s| - 1];
      var r := (prev + x) % U32_LIMIT;
      WrapAddU32(Sum(s[..|s| - 1]), x);
      r
  }

  lemma WrapAddU32(a: int, x: int)
    ensures (a % U32_LIMIT + x) % U32_LIMIT == (a + x) % U32_LIMIT
  {
  }

  /** The average stored in the u8 field `avgAdcValue`: the wrapped sum divided
      by the buffer length, truncated to 8 bits by the assignment. */
  function AverageU8(buffer: seq<i16>): (a: u8)
    requires |buffer| == LIGHT_INTENSITY_SAMPLES_IN_BUFFER
  {
    (AccumulateU32(buffer) / LIGHT_INTENSITY_SAMPLES_IN_BUFFER) % U8_LIMIT
  }

  /** `(u8)(0.5 * a - 0.5)` computed in integers. */
  function Calibrate(a: u8): (r: u8)
    ensures r <= 127
    ensures r == TruncateTowardZero(0.5 * (a as real) - 0.5)
  {
    CalibrateMatchesReal(a);
    if a == 0 then 0 else (a - 1) / 2
  }

  /** Conversion of a real value to an integer type in C++: the fraction is dropped toward zero. */
  function TruncateTowardZero(x: real): int {
    if x >= 0.0 then x.Floor else -((-x).Floor)
  }

  lemma CalibrateMatchesReal(a: u8)
    ensures TruncateTowardZero(0.5 * (a as real) - 0.5) == if a == 0 then 0 else (a - 1) / 2
  {
    var x := 0.5 * (a as real) - 0.5;
    if a == 0 {
      assert -x == 0.5;
      assert (0.5).Floor == 0;
    } else {
      var q := (a - 1) / 2;
      var m := (a - 1) % 2;
      assert a - 1 == 2 * q + m;
      assert x == q as real + 0.5 * (m as real);
      assert q as real <= x < q as real + 1.0;
      assert x.Floor == q;
    }
  }

  /** The reading AvgADCValue leaves in `avgAdcValue`. */
  function Reading(buffer: seq<i16>): (r: u8)
    requires |buffer| == LIGHT_INTENSITY_SAMPLES_IN_BUFFER
    ensures r <= 127
    ensures r == TruncateTowardZero(0.5 * ((Sum(buffer) % U32_LIMIT / LIGHT_INTENSITY_SAMPLES_IN_BUFFER % U8_LIMIT) as real) - 0.5)
  {
    Calibrate(AverageU8(buffer))
  }

  /** With one sample in the buffer the average is the sample modulo 256 (a
      negative sample wraps through u32 first). */
  lemma {:induction false} SingleSampleReading(v: i16)
    ensures AverageU8([v]) == v % U8_LIMIT
    ensures Reading([v]) == Calibrate(v % U8_LIMIT)
  {
    assert [v][..0] == [];
    assert Sum([v]) == v;
    U32ThenU8(v);
  }

  lemma U32ThenU8(v: int)
    ensures v % U32_LIMIT % U8_LIMIT == v % U8_LIMIT
  {
  }

  /** The two calibration points quoted beside the formula: raw 2 (sensor covered)
      gives 0, raw 150 (bright light) gives 74; a raw -1 wraps to 255 and gives 127. */
  lemma CalibrationPoints()
    ensures Reading([2]) == 0
    ensures Reading([150]) == 74
    ensures Reading([-1]) == 127
  {
    SingleSampleReading(2);
    SingleSampleReading(150);
    SingleSampleReading(-1);
  }

  /** The channel profile selected by the ADC_INTERNAL_MEASUREMENT feature. */
  function ChannelProfile(plat: Platform): (p: AdcProfile)
    ensures plat.adcInternalMeasurement <==> p.resolution == Adc10Bit
  {
    if plat.adcInternalMeasurement
    then AdcProfile(AdcReference0_6V, Adc10Bit, AdcGain1_6)
    else AdcProfile(AdcReference1_2V, Adc8Bit, AdcGain1)
  }

  /** New value of `isADCInitialized` and the hardware calls of one step. */
  datatype GateStep = GateStep(initialized: bool, events: seq<Event>)

  /** InitLightIntensityADC: no-op without a pin or when already initialised;
      otherwise AdcInit, channel configuration, and the flag is set whatever the
      configuration returned. */
  function InitAdc(initialized: bool, plat: Platform, configureSucceeded: bool): (r: GateStep)
    ensures plat.lightIntensityAdcInputPin == PIN_NONE || initialized ==> r == GateStep(initialized, [])
    ensures plat.lightIntensityAdcInputPin != PIN_NONE ==> r.initialized
    ensures r.events == [] || r.events == [AdcInit, AdcConfigureChannel(plat.lightIntensityAdcInputPin, ChannelProfile(plat), configureSucceeded)]
    ensures r.events != [] <==> plat.lightIntensityAdcInputPin != PIN_NONE && !initialized
  {
    if plat.lightIntensityAdcInputPin == PIN_NONE || initialized then GateStep(initialized, [])
    else
      GateStep(true, [AdcInit, AdcConfigureChannel(plat.lightIntensityAdcInputPin, ChannelProfile(plat), configureSucceeded)])
  }

  /** The enable-pin writes done before sampling when the input pin is non-negative. */
  function EnablePinEvents(plat: Platform): seq<Event> {
    if plat.lightIntensityAdcInputPin >= 0
    then [GpioConfigureOutput(plat.lightIntensityMeasurementEnablePin), GpioPinSet(plat.lightIntensityMeasurementEnablePin)]
    else []
  }

  /** LightIntensityADC (non-simulator build): initialise, then drive the enable
      pin, start one sample and clear the flag. */
  function SampleAdc(initialized: bool, plat: Platform, configureSucceeded: bool): (r: GateStep)
    ensures plat.lightIntensityAdcInputPin == PIN_NONE ==> r == GateStep(initialized, [])
    ensures plat.lightIntensityAdcInputPin != PIN_NONE ==>
      !r.initialized &&
      r.events == InitAdc(initialized, plat, configureSucceeded).events + EnablePinEvents(plat) + [AdcSample(1)]
  {
    var init := InitAdc(initialized, plat, configureSucceeded);
    if !init.initialized || plat.lightIntensityAdcInputPin == PIN_NONE then init
    else GateStep(false, init.events + EnablePinEvents(plat) + [AdcSample(1)])
  }

  /** Two Init calls in a row configure the channel at most once: the second
      one changes nothing and calls no hardware. */
  lemma InitTwiceConfiguresOnce(initialized: bool, plat: Platform, ok1: bool, ok2: bool)
    ensures var first := InitAdc(initialized, plat, ok1);
            InitAdc(first.initialized, plat, ok2) == GateStep(first.initialized, [])
  {
  }

  /** The flag does not block a second acquisition: with a pin assigned, each
      of two consecutive sample calls re-initialises the hardware and samples. */
  lemma {:induction false} SampleNeverBlocks(initialized: bool, plat: Platform, ok1: bool, ok2: bool)
    requires plat.lightIntensityAdcInputPin != PIN_NONE
    ensures var first := SampleAdc(initialized, plat, ok1);
            var second := SampleAdc(first.initialized, plat, ok2);
            !second.initialized &&
            second.events[0] == AdcInit &&
            second.events[|second.events| - 1] == AdcSample(1)
  {
    var first := SampleAdc(initialized, plat, ok1);
    assert !first.initialized;
    var init := InitAdc(first.initialized, plat, ok2);
    assert init.events[0] == AdcInit;
  }
}
