/**
 * The DG-LAB Coyote 3 device protocol: the quantizer from Hz to the
 * device's frequency units, the 20-byte `0xB0` pulse command, the 7-byte
 * `0xBF` parameter command, the `0xB1` status notification, and the stages
 * of connecting, with the Bluetooth calls turned into events.
 */
module Coyote {
  import opened Wrappers
  import opened Numeric
  import opened Pulses

  /** Seconds covered by one pulse sample. */
  const PULSE_TIME: real := 0.025

  /** The device's internal frequency range, 5..240. */
  const INTERNAL_FREQUENCY_MIN: int := 5
  const INTERNAL_FREQUENCY_MAX: int := 240

  /**
   * The device value for a period in milliseconds, before rounding: the
   * period itself up to 100 ms, then a fifth of the excess over 100, then a
   * tenth of the excess over 600; anything outside 5..1000 ms falls back
   * to 10. The ranges are tried in order, so 100 and 600 take the earlier
   * formula.
   */
  function PeriodValue(period: real): (r: real)
    ensures 5.0 <= period <= 1000.0 ==> 5.0 <= r <= 240.0
    ensures !(5.0 <= period <= 1000.0) ==> r == 10.0
    ensures 5.0 <= period <= 100.0 ==> r == period
  {
    if 5.0 <= period <= 100.0 then period
    else if 100.0 <= period <= 600.0 then (period - 100.0) / 5.0 + 100.0
    else if 600.0 <= period <= 1000.0 then (period - 600.0) / 10.0 + 200.0
    else 10.0
  }

  /** The three formulas meet where the ranges touch, so the curve has no jumps. */
  lemma PeriodFormulasAgree()
    ensures PeriodValue(100.0) == 100.0 == (100.0 - 100.0) / 5.0 + 100.0
    ensures PeriodValue(600.0) == (600.0 - 100.0) / 5.0 + 100.0 == (600.0 - 600.0) / 10.0 + 200.0
    ensures PeriodValue(1000.0) == 240.0
  {
  }

  /** A longer period never gets a smaller device value, across all three ranges. */
  lemma {:induction false} PeriodValueMonotone(p: real, q: real)
    requires 5.0 <= p <= q <= 1000.0
    ensures PeriodValue(p) <= PeriodValue(q)
  {
    if q <= 100.0 {
    } else if p <= 100.0 {
      assert PeriodValue(p) <= 100.0;
    } else if q <= 600.0 {
    } else if p <= 600.0 {
      assert PeriodValue(p) <= 200.0;
    }
  }

  lemma RoundMonotone(x: real, y: real)
    requires x <= y
    ensures RoundToInt(x) <= RoundToInt(y)
  {
  }

  /**
   * `frequencyToStupidCoyoteValue`: the period `1000 / frequency` through
   * the three formulas, rounded half up and kept within 5..240. A
   * frequency of zero or below gives an infinite or negative period, so the
   * fallback.
   */
  function QuantizeFrequency(frequency: real): (r: int)
    ensures INTERNAL_FREQUENCY_MIN <= r <= INTERNAL_FREQUENCY_MAX
    ensures frequency <= 0.0 ==> r == 10
    ensures frequency > 0.0 ==> r == ClampInt(RoundToInt(PeriodValue(1000.0 / frequency)), 5, 240)
  {
    var calculated := if frequency > 0.0 then PeriodValue(1000.0 / frequency) else 10.0;
    ClampInt(RoundToInt(calculated), INTERNAL_FREQUENCY_MIN, INTERNAL_FREQUENCY_MAX)
  }

  /** Frequencies of 1 to 200 Hz are periods of 5 to 1000 ms. */
  lemma PeriodOfFrequency(frequency: real)
    requires 1.0 <= frequency <= 200.0
    ensures 5.0 <= 1000.0 / frequency <= 1000.0
  {
    var p := 1000.0 / frequency;
    assert p * frequency == 1000.0;
    if p < 5.0 {
      MulStrict(p, 5.0, frequency);
    }
    if p > 1000.0 {
      MulStrict(1000.0, p, frequency);
    }
  }

  /** Within 5..240 the clamp never changes a value: the result is the rounded formula itself. */
  lemma {:induction false} ClampIsInactive(frequency: real)
    ensures QuantizeFrequency(frequency) ==
            RoundToInt(if frequency > 0.0 then PeriodValue(1000.0 / frequency) else 10.0)
  {
    var calculated := if frequency > 0.0 then PeriodValue(1000.0 / frequency) else 10.0;
    assert 5.0 <= calculated <= 240.0;
    RoundMonotone(5.0, calculated);
    RoundMonotone(calculated, 240.0);
  }

  /** A higher frequency has a shorter period. */
  lemma ReciprocalAntitone(f: real, g: real)
    requires 0.0 < f <= g
    ensures 1000.0 / g <= 1000.0 / f
  {
    var pf, pg := 1000.0 / f, 1000.0 / g;
    assert pf * f == 1000.0;
    assert pg * g == 1000.0;
    MulMonotone(f, g, pg);
    assert pg * f <= pf * f;
    if pg > pf {
      MulStrict(pf, pg, f);
    }
  }

  /** Between 1 and 200 Hz a higher frequency never gets a larger device value. */
  lemma {:induction false} QuantizeMonotone(f: real, g: real)
    requires 1.0 <= f <= g <= 200.0
    ensures QuantizeFrequency(g) <= QuantizeFrequency(f)
  {
    PeriodOfFrequency(f);
    PeriodOfFrequency(g);
    var pf, pg := 1000.0 / f, 1000.0 / g;
    ReciprocalAntitone(f, g);
    PeriodValueMonotone(pg, pf);
    ClampIsInactive(f);
    ClampIsInactive(g);
    RoundMonotone(PeriodValue(pg), PeriodValue(pf));
  }

  /** The amplitude byte: `round(amplitude * 100)`, kept within 0..100. */
  function AmplitudeByte(amplitude: real): (r: Byte)
    ensures 0 <= r <= 100
    ensures 0.0 <= amplitude <= 1.0 ==> r == RoundToInt(amplitude * 100.0)
    ensures amplitude <= 0.0 ==> r == 0
    ensures amplitude >= 1.0 ==> r == 100
  {
    if 0.0 <= amplitude <= 1.0 then
      RoundMonotone(0.0, amplitude * 100.0);
      RoundMonotone(amplitude * 100.0, 100.0);
      ClampInt(RoundToInt(amplitude * 100.0), 0, 100)
    else
      ClampInt(RoundToInt(amplitude * 100.0), 0, 100)
  }

  /** The frequency byte: the internal frequency in [0, 1] mapped onto [min, max] Hz and quantized. */
  function FrequencyByte(minFrequency: real, maxFrequency: real, frequency: real): (r: Byte)
    ensures r as int == QuantizeFrequency(minFrequency + (maxFrequency - minFrequency) * frequency)
  {
    ToByte(QuantizeFrequency(minFrequency + (maxFrequency - minFrequency) * frequency))
  }

  /** Each pulse's channel A frequency byte, in order. */
  function FrequenciesA(minFrequency: real, maxFrequency: real, pulses: seq<Pulse>): (r: seq<Byte>)
    ensures |r| == |pulses|
    ensures forall i | 0 <= i < |pulses| :: r[i] == FrequencyByte(minFrequency, maxFrequency, pulses[i].freqA)
  {
    seq(|pulses|, i requires 0 <= i < |pulses| => FrequencyByte(minFrequency, maxFrequency, pulses[i].freqA))
  }

  function FrequenciesB(minFrequency: real, maxFrequency: real, pulses: seq<Pulse>): (r: seq<Byte>)
    ensures |r| == |pulses|
    ensures forall i | 0 <= i < |pulses| :: r[i] == FrequencyByte(minFrequency, maxFrequency, pulses[i].freqB)
  {
    seq(|pulses|, i requires 0 <= i < |pulses| => FrequencyByte(minFrequency, maxFrequency, pulses[i].freqB))
  }

  function AmplitudesA(pulses: seq<Pulse>): (r: seq<Byte>)
    ensures |r| == |pulses|
    ensures forall i | 0 <= i < |pulses| :: r[i] == AmplitudeByte(pulses[i].ampA) && r[i] <= 100
  {
    seq(|pulses|, i requires 0 <= i < |pulses| => AmplitudeByte(pulses[i].ampA))
  }

  function AmplitudesB(pulses: seq<Pulse>): (r: seq<Byte>)
    ensures |r| == |pulses|
    ensures forall i | 0 <= i < |pulses| :: r[i] == AmplitudeByte(pulses[i].ampB) && r[i] <= 100
  {
    seq(|pulses|, i requires 0 <= i < |pulses| => AmplitudeByte(pulses[i].ampB))
  }

  function SwapAll(pulses: seq<Pulse>): (r: seq<Pulse>)
    ensures |r| == |pulses| && forall i | 0 <= i < |pulses| :: r[i] == SwappedPulse(pulses[i])
  {
    seq(|pulses|, i requires 0 <= i < |pulses| => SwappedPulse(pulses[i]))
  }

  /**
   * `pulseDataToByteArray`: channel A's frequencies then its amplitudes, then
   * channel B's; with `swapChannels` the B block comes first.
   */
  function PulseData(minFrequency: real, maxFrequency: real, swapChannels: bool, pulses: seq<Pulse>): (r: seq<Byte>)
    ensures |r| == 4 * |pulses|
    ensures var n := |pulses|;
            var blockA := FrequenciesA(minFrequency, maxFrequency, pulses) + AmplitudesA(pulses);
            var blockB := FrequenciesB(minFrequency, maxFrequency, pulses) + AmplitudesB(pulses);
            r == (if swapChannels then blockB + blockA else blockA + blockB)
  {
    var blockA := FrequenciesA(minFrequency, maxFrequency, pulses) + AmplitudesA(pulses);
    var blockB := FrequenciesB(minFrequency, maxFrequency, pulses) + AmplitudesB(pulses);
    if swapChannels then blockB + blockA else blockA + blockB
  }

  /** Sending with `swapChannels` is sending the pulses with their channels exchanged. */
  lemma SwapIsChannelExchange(minFrequency: real, maxFrequency: real, pulses: seq<Pulse>)
    ensures PulseData(minFrequency, maxFrequency, true, pulses) ==
            PulseData(minFrequency, maxFrequency, false, SwapAll(pulses))
  {
    var swapped := SwapAll(pulses);
    assert FrequenciesA(minFrequency, maxFrequency, swapped) == FrequenciesB(minFrequency, maxFrequency, pulses);
    assert AmplitudesA(swapped) == AmplitudesB(pulses);
    assert FrequenciesB(minFrequency, maxFrequency, swapped) == FrequenciesA(minFrequency, maxFrequency, pulses);
    assert AmplitudesB(swapped) == AmplitudesA(pulses);
  }

  /** Where each sample's bytes land in the unswapped 16-byte data block. */
  lemma PulseDataLayout(minFrequency: real, maxFrequency: real, pulses: seq<Pulse>, i: nat)
    requires |pulses| == 4 && i < 4
    ensures var d := PulseData(minFrequency, maxFrequency, false, pulses);
            d[i] == FrequencyByte(minFrequency, maxFrequency, pulses[i].freqA) &&
            d[4 + i] == AmplitudeByte(pulses[i].ampA) &&
            d[8 + i] == FrequencyByte(minFrequency, maxFrequency, pulses[i].freqB) &&
            d[12 + i] == AmplitudeByte(pulses[i].ampB)
  {
  }

  /** The setup values sent once connected, and their defaults. */
  datatype Parameters = Parameters(
    channelALimit: int, channelBLimit: int,
    channelAFrequencyBalance: int, channelBFrequencyBalance: int,
    channelAIntensityBalance: int, channelBIntensityBalance: int)

  const DefaultParameters: Parameters := Parameters(70, 70, 160, 160, 0, 0)

  /** `sendBFCommand`: the header `0xBF` and the six parameters, each as its low byte. */
  function ParametersCommand(p: Parameters): (r: seq<Byte>)
    ensures |r| == 7 && r[0] == 0xBF
    ensures r[1] == ToByte(p.channelALimit) && r[2] == ToByte(p.channelBLimit)
    ensures r[3] == ToByte(p.channelAFrequencyBalance) && r[4] == ToByte(p.channelBFrequencyBalance)
    ensures r[5] == ToByte(p.channelAIntensityBalance) && r[6] == ToByte(p.channelBIntensityBalance)
  {
    [0xBF, ToByte(p.channelALimit), ToByte(p.channelBLimit),
     ToByte(p.channelAFrequencyBalance), ToByte(p.channelBFrequencyBalance),
     ToByte(p.channelAIntensityBalance), ToByte(p.channelBIntensityBalance)]
  }

  /** Parameters within 0..255 travel unchanged; the defaults give `BF 46 46 A0 A0 00 00`. */
  lemma ParametersCommandExact(p: Parameters)
    requires 0 <= p.channelALimit < 256 && 0 <= p.channelBLimit < 256
    requires 0 <= p.channelAFrequencyBalance < 256 && 0 <= p.channelBFrequencyBalance < 256
    requires 0 <= p.channelAIntensityBalance < 256 && 0 <= p.channelBIntensityBalance < 256
    ensures ParametersCommand(p) == [0xBF, p.channelALimit, p.channelBLimit,
                                     p.channelAFrequencyBalance, p.channelBFrequencyBalance,
                                     p.channelAIntensityBalance, p.channelBIntensityBalance]
    ensures ParametersCommand(DefaultParameters) == [0xBF, 0x46, 0x46, 0xA0, 0xA0, 0x00, 0x00]
  {
  }

  /** The strength-update flag: `0x1F` when either strength differs from the device's last report. */
  function StrengthFlag(channelAStrength: int, channelBStrength: int, previousA: int, previousB: int): (r: Byte)
    ensures r == 0x1F <==> channelAStrength != previousA || channelBStrength != previousB
    ensures r == 0x00 <==> channelAStrength == previousA && channelBStrength == previousB
  {
    if channelAStrength != previousA || channelBStrength != previousB then 0x1F else 0x00
  }

  /**
   * How `onCharacteristicChanged` reads a strength byte of a `0xB1` report:
   * `Byte.toInt()`, which is signed.
   */
  function ReportedStrengthAsWritten(b: Byte): (v: int)
    ensures b < 128 ==> v == b
    ensures b >= 128 ==> v == b - 256 && v < 0
  {
    SignedValue(b)
  }

  /** The strength a report byte stands for: the unsigned value, as the device sends 0..200. */
  function ReportedStrength(b: Byte): (v: int)
    ensures 0 <= v < 256
    ensures forall s | 0 <= s < 256 :: b == ToByte(s) ==> v == s
  {
    b
  }

  /**
   * With the signed reading, a device at strength 150 that echoes it back
   * leaves the app believing the strength is -106, so every later pulse
   * command still carries the update flag and the app is told of a
   * negative power.
   */
  lemma SignedStrengthMisread()
    ensures ReportedStrengthAsWritten(ToByte(150)) == -106
    ensures StrengthFlag(150, 0, ReportedStrengthAsWritten(ToByte(150)), ReportedStrengthAsWritten(ToByte(0))) == 0x1F
  {
  }

  /**
   * With the unsigned reading, every strength in the device's power range
   * 0..200 is read back as itself, so an echoed strength clears the flag.
   */
  lemma ReportedStrengthRoundTrip(a: int, b: int)
    requires 0 <= a <= 200 && 0 <= b <= 200
    ensures ReportedStrength(ToByte(a)) == a && ReportedStrength(ToByte(b)) == b
    ensures StrengthFlag(a, b, ReportedStrength(ToByte(a)), ReportedStrength(ToByte(b))) == 0x00
  {
  }

  /** The stages of connecting to the device. */
  datatype ConnectionStage =
    | Disconnected
    | ScanForDevice
    | ConnectToDevice
    | ServiceDiscovery
    | RegisterForStatusUpdates
    | SyncParameters
    | Connected

  /** The connection states Android reports to the app. */
  datatype GattState = StateConnected | StateDisconnected | StateOther

  /** A power level to report to the app: channel 0 is A, 1 is B. */
  datatype PowerReport = PowerReport(powerA: int, powerB: int)

  /** The `DGCoyote` object: its connection stage and the strengths the device last reported. */
  class Device {
    var currentConnectionStage: ConnectionStage
    var previousChannelAStrength: int
    var previousChannelBStrength: int
    var initialParameters: Parameters

    constructor ()
      ensures currentConnectionStage == Disconnected
      ensures previousChannelAStrength == 0 && previousChannelBStrength == 0
      ensures initialParameters == DefaultParameters
    {
      currentConnectionStage := Disconnected;
      previousChannelAStrength := 0;
      previousChannelBStrength := 0;
      initialParameters := DefaultParameters;
    }

    /**
     * `sendPulse`: nothing unless there are exactly four samples; otherwise
     * the 20-byte command `B0`, the update flag, both strengths as bytes,
     * and the 16 bytes of pulse data.
     */
    function PulseCommand(channelAStrength: int, channelBStrength: int, minFrequency: real, maxFrequency: real,
                          swapChannels: bool, pulses: seq<Pulse>): (r: Option<seq<Byte>>)
      reads this
      ensures r.None? <==> |pulses| != 4
      ensures r.Some? ==> |r.value| == 20 && r.value[0] == 0xB0 &&
                          r.value[1] == StrengthFlag(channelAStrength, channelBStrength,
                                                     previousChannelAStrength, previousChannelBStrength) &&
                          r.value[2] == ToByte(channelAStrength) && r.value[3] == ToByte(channelBStrength) &&
                          r.value[4..] == PulseData(minFrequency, maxFrequency, swapChannels, pulses)
    {
      if |pulses| != 4 then None
      else
        var flag := StrengthFlag(channelAStrength, channelBStrength, previousChannelAStrength, previousChannelBStrength);
        var header: seq<Byte> := [0xB0, flag, ToByte(channelAStrength), ToByte(channelBStrength)];
        Some(header + PulseData(minFrequency, maxFrequency, swapChannels, pulses))
    }

    /**
     * `onCharacteristicChanged` for the notify characteristic: an empty value
     * is ignored; a `0xB1` report sets the previous strengths from bytes 2
     * and 3 and, when byte 1 is `0x00`, reports them as power levels. A
     * report too short to hold those bytes stops at the first missing one,
     * before anything is stored.
     */
    method OnStatusNotification(value: seq<Byte>) returns (report: Option<PowerReport>)
      modifies this
      ensures currentConnectionStage == old(currentConnectionStage) && initialParameters == old(initialParameters)
      ensures !(|value| >= 4 && value[0] == 0xB1) ==>
                report == None && previousChannelAStrength == old(previousChannelAStrength) &&
                previousChannelBStrength == old(previousChannelBStrength)
      ensures |value| >= 4 && value[0] == 0xB1 ==>
                previousChannelAStrength == ReportedStrength(value[2]) &&
                previousChannelBStrength == ReportedStrength(value[3]) &&
                (report.Some? <==> value[1] == 0x00) &&
                (report.Some? ==> report.value == PowerReport(ReportedStrength(value[2]), ReportedStrength(value[3])))
    {
      report := None;
      if |value| == 0 || value[0] != 0xB1 || |value| < 4 {
        return;
      }
      var strengthByte := value[1];
      var powerA := ReportedStrength(value[2]);
      var powerB := ReportedStrength(value[3]);
      previousChannelAStrength := powerA;
      previousChannelBStrength := powerB;
      if strengthByte == 0x00 {
        report := Some(PowerReport(powerA, powerB));
      }
    }

    /** `disconnect`: from any stage, back to Disconnected with both strengths forgotten. */
    method Disconnect()
      modifies this
      ensures currentConnectionStage == Disconnected
      ensures previousChannelAStrength == 0 && previousChannelBStrength == 0
      ensures initialParameters == old(initialParameters)
    {
      previousChannelAStrength := 0;
      previousChannelBStrength := 0;
      currentConnectionStage := Disconnected;
    }

    /**
     * `connect`: only from Disconnected and with the Bluetooth permissions
     * granted; the parameters are kept for later and the scan starts, unless
     * the adapter is off, which disconnects at once.
     */
    method Connect(parameters: Parameters, permissionsGranted: bool, adapterEnabled: bool)
      modifies this
      ensures old(currentConnectionStage) != Disconnected || !permissionsGranted ==>
                currentConnectionStage == old(currentConnectionStage) && initialParameters == old(initialParameters) &&
                previousChannelAStrength == old(previousChannelAStrength) &&
                previousChannelBStrength == old(previousChannelBStrength)
      ensures old(currentConnectionStage) == Disconnected && permissionsGranted ==>
                initialParameters == parameters &&
                currentConnectionStage == (if adapterEnabled then ScanForDevice else Disconnected)
      ensures old(currentConnectionStage) == Disconnected && permissionsGranted && !adapterEnabled ==>
                previousChannelAStrength == 0 && previousChannelBStrength == 0
    {
      if currentConnectionStage != Disconnected {
        return;
      }
      if !permissionsGranted {
        return;
      }
      initialParameters := parameters;
      currentConnectionStage := ScanForDevice;
      if !adapterEnabled {
        Disconnect();
      }
    }

    /** The scan found the device: connect to it. */
    method OnScanResult()
      modifies this
      ensures currentConnectionStage == ConnectToDevice
      ensures previousChannelAStrength == old(previousChannelAStrength) && previousChannelBStrength == old(previousChannelBStrength)
      ensures initialParameters == old(initialParameters)
    {
      currentConnectionStage := ConnectToDevice;
    }

    /** The scan ran out of time without finding the device. */
    method OnScanTimeout()
      modifies this
      ensures currentConnectionStage == Disconnected
      ensures previousChannelAStrength == 0 && previousChannelBStrength == 0
      ensures initialParameters == old(initialParameters)
    {
      Disconnect();
    }

    /** `onConnectionStateChange`: connected leads to service discovery, disconnected to `disconnect`. */
    method OnConnectionStateChange(newState: GattState)
      modifies this
      ensures newState == StateConnected ==>
                currentConnectionStage == ServiceDiscovery &&
                previousChannelAStrength == old(previousChannelAStrength) &&
                previousChannelBStrength == old(previousChannelBStrength)
      ensures newState == StateDisconnected ==>
                currentConnectionStage == Disconnected && previousChannelAStrength == 0 && previousChannelBStrength == 0
      ensures newState == StateOther ==>
                currentConnectionStage == old(currentConnectionStage) &&
                previousChannelAStrength == old(previousChannelAStrength) &&
                previousChannelBStrength == old(previousChannelBStrength)
      ensures initialParameters == old(initialParameters)
    {
      if newState == StateConnected {
        currentConnectionStage := ServiceDiscovery;
      } else if newState == StateDisconnected {
        Disconnect();
      }
    }

    /** `onServicesDiscovered`: subscribe to status updates next. */
    method OnServicesDiscovered()
      modifies this
      ensures currentConnectionStage == RegisterForStatusUpdates
      ensures previousChannelAStrength == old(previousChannelAStrength) && previousChannelBStrength == old(previousChannelBStrength)
      ensures initialParameters == old(initialParameters)
    {
      currentConnectionStage := RegisterForStatusUpdates;
    }

    /** `onDescriptorWrite`: a successful subscription to the notify characteristic leads to sending the parameters. */
    method OnDescriptorWrite(success: bool, onNotifyCharacteristic: bool)
      modifies this
      ensures success && onNotifyCharacteristic ==> currentConnectionStage == SyncParameters
      ensures !(success && onNotifyCharacteristic) ==> currentConnectionStage == old(currentConnectionStage)
      ensures previousChannelAStrength == old(previousChannelAStrength) && previousChannelBStrength == old(previousChannelBStrength)
      ensures initialParameters == old(initialParameters)
    {
      if success && onNotifyCharacteristic {
        currentConnectionStage := SyncParameters;
      }
    }

    /** `onCharacteristicWrite`: a successful write completes the connection, but only while syncing the parameters. */
    method OnCharacteristicWrite(success: bool, onWriteCharacteristic: bool)
      modifies this
      ensures success && onWriteCharacteristic && old(currentConnectionStage) == SyncParameters ==>
                currentConnectionStage == Connected
      ensures !(success && onWriteCharacteristic && old(currentConnectionStage) == SyncParameters) ==>
                currentConnectionStage == old(currentConnectionStage)
      ensures previousChannelAStrength == old(previousChannelAStrength) && previousChannelBStrength == old(previousChannelBStrength)
      ensures initialParameters == old(initialParameters)
    {
      if success && onWriteCharacteristic && currentConnectionStage == SyncParameters {
        currentConnectionStage := Connected;
      }
    }
  }
}
