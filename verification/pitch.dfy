/**
 * The collision sound: the impact speed is normalised into `[0, 1]` and
 * mapped linearly onto a playback rate, so harder hits sound higher.
 */
module Pitch {
  import opened Wrappers
  import opened P5Math

  const SpeedRangeMin: real := 1.5
  const SpeedRangeMax: real := 12.0
  const RateMin: real := 0.75
  const RateMax: real := 1.6

  /** Normalised impact strength `t`, clamped to `[0, 1]`. */
  function Strength(speed: real): (t: real)
    ensures 0.0 <= t <= 1.0
    ensures speed <= SpeedRangeMin ==> t == 0.0
    ensures speed >= SpeedRangeMax ==> t == 1.0
    ensures SpeedRangeMin <= speed <= SpeedRangeMax ==>
              t * (SpeedRangeMax - SpeedRangeMin) == speed - SpeedRangeMin
  {
    Constrain((speed - SpeedRangeMin) / (SpeedRangeMax - SpeedRangeMin), 0.0, 1.0)
  }

  /** Playback rate for an impact of the given speed. */
  function PlaybackRate(speed: real): (rate: real)
    ensures RateMin <= rate <= RateMax
    ensures speed <= SpeedRangeMin ==> rate == RateMin
    ensures speed >= SpeedRangeMax ==> rate == RateMax
  {
    Lerp(RateMin, RateMax, Strength(speed))
  }

  /** A harder impact never gives a lower pitch. */
  lemma RateMonotone(s1: real, s2: real)
    requires s1 <= s2
    ensures PlaybackRate(s1) <= PlaybackRate(s2)
  {
  }

  /** Inside the speed range a harder impact gives a strictly higher pitch. */
  lemma RateStrictlyIncreasingInRange(s1: real, s2: real)
    requires SpeedRangeMin <= s1 < s2 <= SpeedRangeMax
    ensures PlaybackRate(s1) < PlaybackRate(s2)
  {
  }

  /** The middle of the speed range maps to the middle of the rate range. */
  lemma RateMidpoint()
    ensures PlaybackRate((SpeedRangeMin + SpeedRangeMax) / 2.0) == (RateMin + RateMax) / 2.0 == 1.175
  {
  }

  /**
   * What `playPitchedCollision` does with an impact speed: nothing when the
   * audio is not ready or no sample is held, otherwise it plays at the mapped rate.
   */
  function PlayPitchedCollision(speed: real, audioReady: bool, samplesLength: nat): (rate: Option<real>)
    ensures rate.Some? <==> audioReady && samplesLength > 0
    ensures rate.Some? ==> RateMin <= rate.value <= RateMax && rate.value == PlaybackRate(speed)
  {
    if !audioReady || samplesLength == 0 then None
    else Some(PlaybackRate(speed))
  }

  /**
   * The rate thresholds stated on the squared speed `q = vx*vx + vy*vy`,
   * for any nonnegative speed `s` with `s*s == q`.
   */
  lemma RateFromSquaredSpeed(s: real, q: real)
    requires s >= 0.0 && s * s == q
    ensures q <= SpeedRangeMin * SpeedRangeMin ==> PlaybackRate(s) == RateMin
    ensures q >= SpeedRangeMax * SpeedRangeMax ==> PlaybackRate(s) == RateMax
  {
    if s > SpeedRangeMin {
      SquareStrictlyIncreasing(SpeedRangeMin, s);
    }
    if s < SpeedRangeMax {
      SquareStrictlyIncreasing(s, SpeedRangeMax);
    }
  }

  /** A larger squared impact speed never gives a lower pitch. */
  lemma RateMonotoneInSquaredSpeed(s1: real, s2: real)
    requires 0.0 <= s1 && 0.0 <= s2 && s1 * s1 <= s2 * s2
    ensures PlaybackRate(s1) <= PlaybackRate(s2)
  {
    if s1 > s2 {
      SquareStrictlyIncreasing(s2, s1);
    }
    RateMonotone(s1, s2);
  }
}
