/** The four-channel output sample every pulse source produces. */
module Pulses {
  /** `Pulse`: amplitude and frequency of channels A and B, each nominally in [0, 1]. */
  datatype Pulse = Pulse(ampA: real, ampB: real, freqA: real, freqB: real)

  /** The default `Pulse()`, all zero. */
  const ZeroPulse: Pulse := Pulse(0.0, 0.0, 0.0, 0.0)

  /** A pulse with its channels exchanged. */
  function SwappedPulse(p: Pulse): (r: Pulse)
    ensures r.ampA == p.ampB && r.ampB == p.ampA && r.freqA == p.freqB && r.freqB == p.freqA
  {
    Pulse(p.ampB, p.ampA, p.freqB, p.freqA)
  }

  /** Exchanging the channels twice gives the pulse back. */
  lemma SwapTwice(p: Pulse)
    ensures SwappedPulse(SwappedPulse(p)) == p
  {
  }
}
