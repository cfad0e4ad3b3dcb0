/** The outcome of one measurement cycle (JSN_SR04_Gen3::DistanceResult). */
module Results {

  /** DistanceResult::Status: exactly four values, in declaration order. */
  datatype Status = Success | Error | TooManyRetries | Busy

  /** A status and a distance in metres. The double of the source is an exact real here. */
  datatype DistanceResult = DistanceResult(status: Status, distanceM: real)

  /** A default-constructed DistanceResult: status ERROR, distance 0.0. */
  const DefaultResult: DistanceResult := DistanceResult(Error, 0.0)

  /** Microseconds per second: the capture runs at one bit per microsecond. */
  const MicrosPerSecond: real := 1000000.0

  /** Half the speed of sound in m/s: the echo pulse covers the way out and back. */
  const HalfSpeedOfSoundMps: real := 170.0

  /** The echo pulse width in microseconds converted to metres. */
  function DistanceM(pulseUs: int): (d: real)
    ensures pulseUs >= 0 ==> d >= 0.0
    ensures d * MicrosPerSecond == pulseUs as real * HalfSpeedOfSoundMps
  {
    pulseUs as real / MicrosPerSecond * HalfSpeedOfSoundMps
  }

  /** The conversion keeps the measured pulse: it can be recovered from the distance. */
  function PulseUs(d: real): (pulseUs: real)
    ensures forall n: int {:trigger DistanceM(n)} :: d == DistanceM(n) ==> pulseUs == n as real
  {
    d * MicrosPerSecond / HalfSpeedOfSoundMps
  }

  /** Longer pulses give longer distances; a 1000 us pulse is 0.17 m. */
  lemma DistanceMonotone(a: int, b: int)
    requires a <= b
    ensures DistanceM(a) <= DistanceM(b)
    ensures DistanceM(1000) == 0.17
  {
  }
}
