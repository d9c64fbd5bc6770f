/**
 * The player: which times a batch of pulses samples, the post-processing
 * every pulse goes through before it is sent (frequency inversion, the
 * developer gain and exponent, channel swap), and the automatic power
 * increase.
 */
module Player {
  import opened Wrappers
  import opened Numeric
  import opened Pulses

  /** Seconds between batches, samples per batch, and seconds per sample. */
  const MAIN_TIMER_DELAY: real := 0.1
  const PULSE_BATCH_SIZE: nat := 4
  const PULSE_TIME: real := MAIN_TIMER_DELAY / PULSE_BATCH_SIZE as real

  /** The time of sample `index` of a batch starting at `time`, `step` seconds apart. */
  function SampleTime(time: real, step: real, index: int): real
  {
    time + step * index as real
  }

  /**
   * `getNextTimes`: the four sample times of a batch, one pulse time apart
   * at the playback speed, starting at `time`.
   */
  function GetNextTimes(time: real, playbackSpeed: real): (r: seq<real>)
    ensures |r| == PULSE_BATCH_SIZE && r[0] == time
    ensures forall i | 0 <= i < |r| :: r[i] == SampleTime(time, PULSE_TIME * playbackSpeed, i)
    ensures playbackSpeed > 0.0 ==> forall i, j | 0 <= i < j < |r| :: r[i] < r[j]
  {
    var relativePulseTime := PULSE_TIME * playbackSpeed;
    var times := seq(PULSE_BATCH_SIZE, index => SampleTime(time, relativePulseTime, index));
    forall i, j | 0 <= i < j < |times| && playbackSpeed > 0.0
      ensures times[i] < times[j]
    {
      MulPos(PULSE_TIME, playbackSpeed);
      LaterSample(time, relativePulseTime, i, j);
    }
    times
  }

  /** A later sample index lands at a later time when the step is positive. */
  lemma LaterSample(time: real, step: real, i: nat, j: nat)
    requires step > 0.0 && i < j
    ensures SampleTime(time, step, i) < SampleTime(time, step, j)
  {
    MulStrict(i as real, j as real, step);
  }

  /** The developer options: gain and exponent for amplitude and frequency, and a frequency offset per channel. */
  datatype DeveloperOptions = DeveloperOptions(
    amplitudeExponent: real, amplitudeGain: real,
    frequencyExponent: real, frequencyGain: real,
    frequencyAdjustA: real, frequencyAdjustB: real)

  /** The settings post-processing reads; `developer` is present when the developer options are shown. */
  datatype PostProcessingSettings = PostProcessingSettings(
    frequencyInversionA: bool,
    frequencyInversionB: bool,
    developer: Option<DeveloperOptions>,
    swapChannels: bool)

  /** A frequency, inverted (`1 - f`) or not. */
  function Inverted(frequency: real, invert: bool): (r: real)
    ensures invert ==> r == 1.0 - frequency
    ensures !invert ==> r == frequency
    ensures 0.0 <= frequency <= 1.0 ==> 0.0 <= r <= 1.0
  {
    if invert then 1.0 - frequency else frequency
  }

  /** `x.pow(exponent) * gain`, kept within [0, 1]. */
  function Shaped(x: real, exponent: real, gain: real, pow: (real, real) -> real): (r: real)
    ensures 0.0 <= r <= 1.0
    ensures 0.0 <= pow(x, exponent) * gain <= 1.0 ==> r == pow(x, exponent) * gain
  {
    Clamp(pow(x, exponent) * gain, 0.0, 1.0)
  }

  /** The pulse after inversion and the developer shaping, before any swap. */
  function Processed(pulse: Pulse, settings: PostProcessingSettings, pow: (real, real) -> real): (r: Pulse)
    ensures settings.developer.None? ==>
              r == Pulse(pulse.ampA, pulse.ampB, Inverted(pulse.freqA, settings.frequencyInversionA),
                         Inverted(pulse.freqB, settings.frequencyInversionB))
    ensures settings.developer.Some? ==>
              0.0 <= r.ampA <= 1.0 && 0.0 <= r.ampB <= 1.0 && 0.0 <= r.freqA <= 1.0 && 0.0 <= r.freqB <= 1.0
    ensures settings.developer.Some? ==>
              var d := settings.developer.value;
              r.ampA == Shaped(pulse.ampA, d.amplitudeExponent, d.amplitudeGain, pow) &&
              r.ampB == Shaped(pulse.ampB, d.amplitudeExponent, d.amplitudeGain, pow) &&
              r.freqA == Clamp(Shaped(Inverted(pulse.freqA, settings.frequencyInversionA),
                                      d.frequencyExponent, d.frequencyGain, pow) + d.frequencyAdjustA, 0.0, 1.0) &&
              r.freqB == Clamp(Shaped(Inverted(pulse.freqB, settings.frequencyInversionB),
                                      d.frequencyExponent, d.frequencyGain, pow) + d.frequencyAdjustB, 0.0, 1.0)
  {
    var freqA := Inverted(pulse.freqA, settings.frequencyInversionA);
    var freqB := Inverted(pulse.freqB, settings.frequencyInversionB);
    match settings.developer
    case None => Pulse(pulse.ampA, pulse.ampB, freqA, freqB)
    case Some(d) =>
      Pulse(Shaped(pulse.ampA, d.amplitudeExponent, d.amplitudeGain, pow),
            Shaped(pulse.ampB, d.amplitudeExponent, d.amplitudeGain, pow),
            Clamp(Shaped(freqA, d.frequencyExponent, d.frequencyGain, pow) + d.frequencyAdjustA, 0.0, 1.0),
            Clamp(Shaped(freqB, d.frequencyExponent, d.frequencyGain, pow) + d.frequencyAdjustB, 0.0, 1.0))
  }

  /** `applyPostProcessing`: the processed pulse, with its channels exchanged when `swapChannels` is set. */
  function ApplyPostProcessing(pulse: Pulse, settings: PostProcessingSettings, pow: (real, real) -> real): (r: Pulse)
    ensures r == (if settings.swapChannels then SwappedPulse(Processed(pulse, settings, pow))
                  else Processed(pulse, settings, pow))
    ensures settings.developer.Some? ==>
              0.0 <= r.ampA <= 1.0 && 0.0 <= r.ampB <= 1.0 && 0.0 <= r.freqA <= 1.0 && 0.0 <= r.freqB <= 1.0
  {
    var processed := Processed(pulse, settings, pow);
    if settings.swapChannels then SwappedPulse(processed) else processed
  }

  /**
   * Inversion acts on each channel alone: inverting channel A changes only
   * `freqA`, and inverting twice gives the frequency back.
   */
  lemma InversionIsPerChannel(pulse: Pulse, settings: PostProcessingSettings, pow: (real, real) -> real)
    requires settings.developer.None? && !settings.swapChannels
    ensures var r := ApplyPostProcessing(pulse, settings, pow);
            r.ampA == pulse.ampA && r.ampB == pulse.ampB &&
            r.freqA == (if settings.frequencyInversionA then 1.0 - pulse.freqA else pulse.freqA) &&
            r.freqB == (if settings.frequencyInversionB then 1.0 - pulse.freqB else pulse.freqB)
    ensures Inverted(Inverted(pulse.freqA, true), true) == pulse.freqA
  {
  }

  /**
   * Swapping commutes with the rest of the processing when both channels
   * are treated alike: processing the swapped pulse with the inversion
   * flags exchanged, then not swapping, is the same as swapping at the end.
   */
  lemma {:induction false} SwapAfterProcessing(pulse: Pulse, settings: PostProcessingSettings, pow: (real, real) -> real)
    requires settings.swapChannels && settings.developer.None?
    ensures ApplyPostProcessing(pulse, settings, pow) ==
            ApplyPostProcessing(SwappedPulse(pulse),
                                settings.(frequencyInversionA := settings.frequencyInversionB,
                                          frequencyInversionB := settings.frequencyInversionA,
                                          swapChannels := false), pow)
  {
    var exchanged := settings.(frequencyInversionA := settings.frequencyInversionB,
                               frequencyInversionB := settings.frequencyInversionA,
                               swapChannels := false);
    assert Processed(SwappedPulse(pulse), exchanged, pow) == SwappedPulse(Processed(pulse, settings, pow));
  }

  /** `getPulseAtTime`: the active source's pulse, or all zeros without one, then post-processed. */
  function GetPulseAtTime(sourcePulse: Option<Pulse>, settings: PostProcessingSettings, pow: (real, real) -> real): (r: Pulse)
    ensures sourcePulse.None? ==> r == ApplyPostProcessing(ZeroPulse, settings, pow)
    ensures sourcePulse.Some? ==> r == ApplyPostProcessing(sourcePulse.value, settings, pow)
    ensures sourcePulse.None? && settings.developer.None? && !settings.frequencyInversionA && !settings.frequencyInversionB ==>
              r == ZeroPulse
  {
    ApplyPostProcessing(sourcePulse.GetOr(ZeroPulse), settings, pow)
  }

  /** The user's power settings that the automatic increase reads. */
  datatype PowerOptions = PowerOptions(
    autoIncreasePower: bool, globalMute: bool,
    channelAPower: int, channelBPower: int,
    delayA: int, delayB: int,
    channelALimit: int, channelBLimit: int)

  /** The channel powers after the automatic increase. */
  datatype PowerLevels = PowerLevels(channelAPower: int, channelBPower: int)

  /** `setChannelXPower`: the requested power kept within 0..limit. */
  function LimitedPower(power: int, limit: int): (r: int)
    requires limit >= 0
    ensures 0 <= r <= limit
    ensures 0 <= power <= limit ==> r == power
  {
    ClampInt(power, 0, limit)
  }

  /** The counters `handlePowerAutoIncrement` keeps between calls, one tick per main timer period. */
  class PowerAutoIncrement {
    var counterA: int
    var counterB: int

    constructor ()
      ensures counterA == 0 && counterB == 0
    {
      counterA := 0;
      counterB := 0;
    }

    /**
     * `handlePowerAutoIncrement`: only while the automatic increase is on
     * and not muted, a channel with power above zero counts one tick; a
     * counter that has reached ten ticks per second of its delay goes back to
     * zero and raises its channel's power by one, within the channel limit.
     */
    method HandlePowerAutoIncrement(options: PowerOptions) returns (levels: PowerLevels)
      requires options.channelALimit >= 0 && options.channelBLimit >= 0
      modifies this
      ensures !options.autoIncreasePower || options.globalMute ==>
                counterA == old(counterA) && counterB == old(counterB) &&
                levels == PowerLevels(options.channelAPower, options.channelBPower)
      ensures options.autoIncreasePower && !options.globalMute ==>
                var ticksA := old(counterA) + (if options.channelAPower > 0 then 1 else 0);
                var ticksB := old(counterB) + (if options.channelBPower > 0 then 1 else 0);
                (ticksA >= options.delayA * 10 ==>
                   counterA == 0 && levels.channelAPower == LimitedPower(options.channelAPower + 1, options.channelALimit)) &&
                (ticksA < options.delayA * 10 ==> counterA == ticksA && levels.channelAPower == options.channelAPower) &&
                (ticksB >= options.delayB * 10 ==>
                   counterB == 0 && levels.channelBPower == LimitedPower(options.channelBPower + 1, options.channelBLimit)) &&
                (ticksB < options.delayB * 10 ==> counterB == ticksB && levels.channelBPower == options.channelBPower)
    {
      levels := PowerLevels(options.channelAPower, options.channelBPower);
      if options.autoIncreasePower && !options.globalMute {
        if options.channelAPower > 0 {
          counterA := counterA + 1;
        }
        if options.channelBPower > 0 {
          counterB := counterB + 1;
        }
        if counterA >= options.delayA * 10 {
          counterA := 0;
          levels := levels.(channelAPower := LimitedPower(options.channelAPower + 1, options.channelALimit));
        }
        if counterB >= options.delayB * 10 {
          counterB := 0;
          levels := levels.(channelBPower := LimitedPower(options.channelBPower + 1, options.channelBLimit));
        }
      }
    }
  }

  /**
   * A channel at a power within its limit and below it rises by exactly
   * one each time its counter fills, and never beyond the limit.
   */
  lemma IncreaseStepsByOne(power: int, limit: int)
    requires 0 <= power < limit
    ensures LimitedPower(power + 1, limit) == power + 1
    ensures LimitedPower(limit + 1, limit) == limit
  {
  }
}
