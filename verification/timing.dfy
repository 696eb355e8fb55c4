/**
 * Timing values of the FadeIn component that are plain arithmetic: the wave
 * period taken from the time of day, the defaults of the optional props, and
 * the per-tile animation delays.
 */
module Timing {
  import opened Options

  /** Stagger between consecutive tiles' entrance animations when the prop is absent or 0 (ms). */
  const DefaultStaggerDelay: int := 50
  /** Initial scale of the entrance animation when the prop is absent or 0. */
  const DefaultScaleStart: real := 0.5
  /** Shortest wave period (ms). */
  const MinWaveDuration: int := 1000
  /** The wave period repeats every this many minutes of the day. */
  const WaveCycleMinutes: int := 150
  /** Milliseconds of wave period per minute into the current cycle. */
  const WaveMsPerMinute: int := 60
  /** Divisor turning a tile's index times the wave period into its wave phase offset. */
  const WavePhaseDivisor: real := 50.0

  /** Minutes since midnight at `hour`:`minute`. */
  function MinuteOfDay(hour: int, minute: int): (t: int)
    ensures 0 <= hour < 24 && 0 <= minute < 60 ==> 0 <= t < 1440 && t / 60 == hour && t % 60 == minute
  {
    hour * 60 + minute
  }

  /**
   * The wave period for a local time of `hour`:`minute`, as read from the
   * clock once when the component is created. The comment beside the formula
   * promises a period between one and ten seconds.
   */
  function WaveDuration(hour: int, minute: int): (d: int)
    requires 0 <= hour < 24 && 0 <= minute < 60
    ensures MinWaveDuration <= d <= 8940
    ensures 1000 <= d <= 10000
    ensures d == MinWaveDuration <==> MinuteOfDay(hour, minute) % WaveCycleMinutes <= 16
    ensures d != MinWaveDuration ==> d % WaveMsPerMinute == 0
  {
    WaveForMinute(MinuteOfDay(hour, minute))
  }

  /** The wave period `t` minutes after midnight. */
  function WaveForMinute(t: int): (d: int)
    requires t >= 0
    ensures MinWaveDuration <= d <= 8940
    ensures d == MinWaveDuration <==> t % WaveCycleMinutes <= 16
    ensures d != MinWaveDuration ==> d % WaveMsPerMinute == 0
  {
    var cycle := (t % WaveCycleMinutes) * WaveMsPerMinute;
    if cycle > MinWaveDuration then cycle else MinWaveDuration
  }

  /** Both ends of the range are reached: 1000 ms at midnight, 8940 ms at 02:29. */
  lemma WaveDurationBoundsTight()
    ensures WaveDuration(0, 0) == MinWaveDuration
    ensures WaveDuration(2, 29) == 8940
  {
  }

  /** Times of day 150 minutes apart give the same wave period. */
  lemma WaveDurationPeriodic(hour: int, minute: int, hour': int, minute': int)
    requires 0 <= hour < 24 && 0 <= minute < 60
    requires 0 <= hour' < 24 && 0 <= minute' < 60
    requires MinuteOfDay(hour', minute') == MinuteOfDay(hour, minute) + WaveCycleMinutes
    ensures WaveDuration(hour', minute') == WaveDuration(hour, minute)
  {
    var t := MinuteOfDay(hour, minute);
    CycleShift(t);
  }

  lemma CycleShift(t: int)
    requires t >= 0
    ensures WaveForMinute(t + WaveCycleMinutes) == WaveForMinute(t)
  {
    var q, r := t / WaveCycleMinutes, t % WaveCycleMinutes;
    assert t + WaveCycleMinutes == (q + 1) * WaveCycleMinutes + r;
  }

  /** `props.staggerDelay || 50`: an absent or zero stagger falls back to 50 ms. */
  function StaggerDelay(prop: Option<int>): (d: int)
    ensures d != 0
    ensures prop == None || prop == Some(0) ==> d == DefaultStaggerDelay
    ensures prop.Some? && prop.value != 0 ==> d == prop.value
  {
    match prop
    case Some(v) => if v != 0 then v else DefaultStaggerDelay
    case None => DefaultStaggerDelay
  }

  /** `props.scaleStart || 0.5`: an absent or zero scale falls back to 0.5. */
  function ScaleStart(prop: Option<real>): (s: real)
    ensures s != 0.0
    ensures prop == None || prop == Some(0.0) ==> s == DefaultScaleStart
    ensures prop.Some? && prop.value != 0.0 ==> s == prop.value
  {
    match prop
    case Some(v) => if v != 0.0 then v else DefaultScaleStart
    case None => DefaultScaleStart
  }

  /** Delay before tile `i` starts its entrance animation (ms). */
  function EntranceDelay(i: nat, stagger: int): (d: int)
    ensures i == 0 ==> d == 0
    ensures stagger >= 0 ==> d >= 0
    ensures i > 0 && stagger > 0 ==> d >= stagger
  {
    i * stagger
  }

  /** Phase offset of tile `i` in the infinite wave animation (ms), as an exact rational. */
  function WaveOffset(i: nat, waveDuration: int): (o: real)
    ensures o * WavePhaseDivisor == (i * waveDuration) as real
    ensures waveDuration >= 0 ==> o >= 0.0
  {
    i as real * (waveDuration as real / WavePhaseDivisor)
  }

  /**
   * With a non-negative stagger later tiles never start earlier; with a
   * positive one (the default included) they start strictly later.
   */
  lemma EntranceDelayOrdered(i: nat, j: nat, stagger: int)
    requires i <= j && stagger >= 0
    ensures EntranceDelay(i, stagger) <= EntranceDelay(j, stagger)
    ensures i < j && stagger > 0 ==> EntranceDelay(i, stagger) < EntranceDelay(j, stagger)
  {
    assert EntranceDelay(j, stagger) - EntranceDelay(i, stagger) == (j - i) * stagger;
  }

  /** A negative stagger prop is truthy and kept, and then reverses the order. */
  lemma NegativeStaggerReverses(stagger: int)
    requires stagger < 0
    ensures StaggerDelay(Some(stagger)) == stagger
    ensures EntranceDelay(1, StaggerDelay(Some(stagger))) < EntranceDelay(0, StaggerDelay(Some(stagger)))
  {
  }

  /** Each tile's wave phase lags the previous one by a fiftieth of the wave period. */
  lemma WaveOffsetStep(i: nat, waveDuration: int)
    requires waveDuration >= MinWaveDuration
    ensures WaveOffset(i + 1, waveDuration) - WaveOffset(i, waveDuration) == waveDuration as real / WavePhaseDivisor
    ensures WaveOffset(i, waveDuration) < WaveOffset(i + 1, waveDuration)
  {
  }
}
