/**
 * The signal conditioner and the audio mapping of the main loop: pitch
 * hysteresis with a lock window, tone hysteresis, and the `map` calls that
 * turn conditioned knob values into a PWM frequency, a duty and the noise
 * band's upper edge.
 */
module Conditioning {
  import opened Arduino
  import opened Sampler

  /** A knob must move by more than this many ADC steps to count as moved. */
  const HYSTERESIS := 4
  /** After a deliberate pitch move, small changes are followed for this many ms. */
  const LOCK_TIMEOUT := 500
  /** Lowest frequency written in the standard modes. */
  const MIN_FREQ_SAFE := 350
  /** Highest frequency of the standard modes. */
  const MAX_FREQ := 2000
  /** Largest duty the tone knob selects (half of the 8-bit PWM range). */
  const MAX_DUTY := 127
  /** The noise band always starts here. */
  const NOISE_FLOOR := 600
  /** Upper edge of the noise band at full pitch. */
  const NOISE_TOP := 5000

  /** The pitch after one conditioning pass, the lock-window start, and whether the pass accepted a value. */
  datatype PitchUpdate = PitchUpdate(pitch: int, lastMove: nat, accepted: bool)

  /** The tone after one conditioning pass, and whether it changed. */
  datatype ToneUpdate = ToneUpdate(tone: int, accepted: bool)

  /**
   * The pitch policy: a move beyond the hysteresis is taken and restarts the
   * lock window; a small move is taken only while the window is open;
   * otherwise the held pitch stays.
   */
  function ConditionPitch(current: int, reading: int, lastMove: nat, now: nat): (r: PitchUpdate)
    ensures Abs(reading - current) > HYSTERESIS ==> r == PitchUpdate(reading, now, true)
    ensures Abs(reading - current) <= HYSTERESIS && now - lastMove < LOCK_TIMEOUT
            ==> r == PitchUpdate(reading, lastMove, true)
    ensures Abs(reading - current) <= HYSTERESIS && now - lastMove >= LOCK_TIMEOUT
            ==> r == PitchUpdate(current, lastMove, false)
    // the held pitch never lags the knob by more than the hysteresis
    ensures Abs(r.pitch - reading) <= HYSTERESIS
  {
    if Abs(reading - current) > HYSTERESIS then PitchUpdate(reading, now, true)
    else if now - lastMove < LOCK_TIMEOUT then PitchUpdate(reading, lastMove, true)
    else PitchUpdate(current, lastMove, false)
  }

  /** The tone policy: plain hysteresis. */
  function ConditionTone(current: int, reading: int): (r: ToneUpdate)
    ensures r.accepted <==> Abs(reading - current) > HYSTERESIS
    ensures r.tone == (if r.accepted then reading else current)
    ensures Abs(r.tone - reading) <= HYSTERESIS
  {
    if Abs(reading - current) > HYSTERESIS then ToneUpdate(reading, true)
    else ToneUpdate(current, false)
  }

  /** The standard modes' frequency: pitch mapped onto [350, 2000] Hz, clamped from below. */
  function TargetFrequency(pitch: int): (f: int)
    ensures f >= MIN_FREQ_SAFE
    ensures 0 <= pitch <= ADC_MAX ==> f <= MAX_FREQ
  {
    var mapped := Map(pitch, 0, ADC_MAX, MIN_FREQ_SAFE, MAX_FREQ);
    MapWithinRange(pitch, 0, ADC_MAX, MIN_FREQ_SAFE, MAX_FREQ);
    if mapped < MIN_FREQ_SAFE then MIN_FREQ_SAFE else mapped
  }

  /** The standard modes' duty: tone mapped onto [0, 127]. */
  function TargetDuty(tone: int): (d: int)
    ensures 0 <= tone <= ADC_MAX ==> 0 <= d <= MAX_DUTY
  {
    MapWithinRange(tone, 0, ADC_MAX, 0, MAX_DUTY);
    Map(tone, 0, ADC_MAX, 0, MAX_DUTY)
  }

  /** Noise mode's band edge: pitch mapped onto [600, 5000] Hz, clamped from below. */
  function NoiseCeiling(pitch: int): (c: int)
    ensures c >= NOISE_FLOOR
    ensures 0 <= pitch <= ADC_MAX ==> c <= NOISE_TOP
  {
    var mapped := Map(pitch, 0, ADC_MAX, NOISE_FLOOR, NOISE_TOP);
    MapWithinRange(pitch, 0, ADC_MAX, NOISE_FLOOR, NOISE_TOP);
    if mapped < NOISE_FLOOR then NOISE_FLOOR else mapped
  }

  /** On the ADC's range the clamp never fires: the frequency is the plain `map`. */
  lemma FrequencyClampInactive(pitch: int)
    requires 0 <= pitch <= ADC_MAX
    ensures TargetFrequency(pitch) == Map(pitch, 0, ADC_MAX, MIN_FREQ_SAFE, MAX_FREQ)
  {
    MapWithinRange(pitch, 0, ADC_MAX, MIN_FREQ_SAFE, MAX_FREQ);
  }

  /** Turning the pitch knob up never lowers the frequency. */
  lemma FrequencyMonotone(p: int, q: int)
    requires 0 <= p <= q
    ensures TargetFrequency(p) <= TargetFrequency(q)
  {
    MapMonotone(p, q, 0, ADC_MAX, MIN_FREQ_SAFE, MAX_FREQ);
  }

  /** Both ends of the pitch knob reach both ends of the frequency range. */
  lemma FrequencyEndpoints()
    ensures TargetFrequency(0) == MIN_FREQ_SAFE && TargetFrequency(ADC_MAX) == MAX_FREQ
  {
    var top := Map(ADC_MAX, 0, ADC_MAX, MIN_FREQ_SAFE, MAX_FREQ);
    assert top == MAX_FREQ by {
      assert (ADC_MAX - 0) * (MAX_FREQ - MIN_FREQ_SAFE) == 6756750;
      assert 6756750 / ADC_MAX == 1650;
    }
  }

  /** Both ends of the tone knob reach both ends of the duty range. */
  lemma DutyEndpoints()
    ensures TargetDuty(0) == 0 && TargetDuty(ADC_MAX) == MAX_DUTY
  {
    var top := Map(ADC_MAX, 0, ADC_MAX, 0, MAX_DUTY);
    assert top == MAX_DUTY by {
      assert (ADC_MAX - 0) * (MAX_DUTY - 0) == 520065;
      assert 520065 / ADC_MAX == MAX_DUTY;
    }
  }

  /** Both ends of the pitch knob reach both ends of the noise band's edge. */
  lemma NoiseCeilingEndpoints()
    ensures NoiseCeiling(0) == NOISE_FLOOR && NoiseCeiling(ADC_MAX) == NOISE_TOP
  {
    var top := Map(ADC_MAX, 0, ADC_MAX, NOISE_FLOOR, NOISE_TOP);
    assert top == NOISE_TOP by {
      assert (ADC_MAX - 0) * (NOISE_TOP - NOISE_FLOOR) == 18018000;
      assert 18018000 / ADC_MAX == 4400;
    }
  }

  /** A held pitch two steps of jitter away is kept outside the lock window, and a five-step move is taken at once. */
  lemma HysteresisScenario(t: nat, now: nat)
    requires now >= t + LOCK_TIMEOUT
    ensures ConditionPitch(2000, 2003, t, now) == PitchUpdate(2000, t, false)
    ensures ConditionPitch(2000, 2005, t, now) == PitchUpdate(2005, now, true)
  {
  }

  /** After a move accepted at t, small changes are followed until t + 499 and refused from t + 500 on. */
  lemma LockWindowScenario(t: nat)
    ensures ConditionPitch(2000, 2003, t, t + 499).accepted
    ensures !ConditionPitch(2000, 2003, t, t + 500).accepted
  {
  }

  /** One pitch conditioning pass per (reading, time) pair, in order. */
  function ConditionPitchRun(current: int, lastMove: nat, readings: seq<(int, nat)>): PitchUpdate
    decreases |readings|
  {
    if readings == [] then PitchUpdate(current, lastMove, false)
    else
      var r := ConditionPitch(current, readings[0].0, lastMove, readings[0].1);
      var rest := ConditionPitchRun(r.pitch, r.lastMove, readings[1..]);
      PitchUpdate(rest.pitch, rest.lastMove, r.accepted || rest.accepted)
  }

  /**
   * Jitter rejection: once the lock window has closed, any stream of
   * readings each within the hysteresis of the held pitch leaves it, and the
   * window, exactly as they were.
   */
  lemma {:induction false} JitterRejected(current: int, lastMove: nat, readings: seq<(int, nat)>)
    requires forall i :: 0 <= i < |readings| ==> Abs(readings[i].0 - current) <= HYSTERESIS
    requires forall i :: 0 <= i < |readings| ==> readings[i].1 >= lastMove + LOCK_TIMEOUT
    ensures ConditionPitchRun(current, lastMove, readings) == PitchUpdate(current, lastMove, false)
  {
    if readings != [] {
      var tail := readings[1..];
      assert forall i :: 0 <= i < |tail| ==> tail[i] == readings[i + 1];
      JitterRejected(current, lastMove, tail);
    }
  }
}
