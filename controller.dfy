/**
 * The firmware's state and the pure meaning of each step that changes it:
 * the encoder interrupt, the feedback tone, and the main loop split into
 * the phases it runs in order (button, encoder check, menu timeout, audio
 * or silence). The class in module SoundToy performs these steps in place
 * and is proved to agree with the functions here.
 */
module Controller {
  import opened Arduino
  import opened Sampler
  import opened Conditioning

  /** Encoder edges closer than this (ms) to the last accepted one are ignored. */
  const DEBOUNCE_MS := 10
  /** A press held longer than this (ms) toggles mute. */
  const LONG_PRESS_TIME := 800
  /** The menu closes after this long (ms) without encoder movement. */
  const MENU_TIMEOUT := 10000
  /** Number of waveforms in the menu: square, saw, triangle, noise. */
  const MENU_ITEMS := 4
  /** The menu position of the noise waveform. */
  const NOISE_MODE := 3
  /** `selectedMode` before any waveform has been chosen. */
  const NO_MODE := -1
  /** Duty of the confirmation beeps. */
  const FEEDBACK_DUTY := 128
  /** Beep frequency of a mute toggle (long press). */
  const MUTE_BEEP := 500
  /** Beep frequency of a confirmed selection (short press). */
  const CONFIRM_BEEP := 2000

  datatype UIState = Playing | Menu

  /** A digital pin level; the button is wired active-low. */
  datatype Level = Low | High

  /** A write to the PWM tone peripheral. */
  datatype Command = SetFreq(hz: int) | SetDuty(duty: int)

  /** The firmware's global variables (the display's refresh timestamp excepted). */
  datatype Globals = Globals(
    uiState: UIState,
    lastInteractionTime: nat,
    menuIndex: int,
    selectedMode: int,
    buttonActive: bool,
    longPressHandled: bool,
    pressStartTime: nat,
    isMuted: bool,
    virtualPosition: int,
    lastPosition: int,
    lastInterruptTime: nat,
    currentPitch: int,
    currentTone: int,
    lastAppliedFreq: int,
    lastAppliedDuty: int,
    lastKnobMoveTime: nat,
    forceUpdate: bool)

  /** The state after a step, and the peripheral writes the step issued, in order. */
  datatype Effect = Effect(after: Globals, cmds: seq<Command>)

  /**
   * What one loop iteration observes: the clock, the button level, the two
   * averaged potentiometer readings, and the raw draws behind the two
   * `random` calls of noise mode.
   */
  datatype LoopInput = LoopInput(now: nat, button: Level, pitch: int, tone: int, dutyDraw: nat, freqDraw: nat)

  /** The globals' initial values, with the two knob readings `setup` takes. */
  function Boot(pitch: int, tone: int): Globals
  {
    Globals(Menu, 0, 0, NO_MODE, false, false, 0, true, 0, 0, 0, pitch, tone, 0, -1, 0, false)
  }

  /** What every reachable state satisfies. */
  predicate Invariant(g: Globals)
  {
    && 0 <= g.menuIndex < MENU_ITEMS
    && g.menuIndex == Abs(g.lastPosition) % MENU_ITEMS
    && NO_MODE <= g.selectedMode < MENU_ITEMS
    && 0 <= g.currentPitch <= ADC_MAX
    && 0 <= g.currentTone <= ADC_MAX
    && -1 <= g.lastAppliedDuty <= MAX_DUTY
    && (g.lastAppliedFreq == 0 || MIN_FREQ_SAFE <= g.lastAppliedFreq <= MAX_FREQ)
  }

  /** The audio engine is off: muted, or no waveform chosen yet. */
  predicate Silent(g: Globals)
  {
    g.isMuted || g.selectedMode == NO_MODE
  }

  /** The three writes of a confirmation beep. */
  function BeepCommands(frequency: int): seq<Command>
  {
    [SetFreq(frequency), SetDuty(FEEDBACK_DUTY), SetDuty(0)]
  }

  /**
   * `playFeedbackTone`: beep, then invalidate the frequency cache and force
   * the next audio update. The duty cache is left as it was.
   */
  function FeedbackTone(g: Globals, frequency: int): Effect
  {
    Effect(g.(forceUpdate := true, lastAppliedFreq := 0), BeepCommands(frequency))
  }

  /** The interrupt handler accepts an edge at `now`. */
  predicate EdgeAccepted(g: Globals, now: nat)
  {
    now - g.lastInterruptTime > DEBOUNCE_MS
  }

  /** `updateEncoder`: a debounced falling edge moves the position one step. */
  function EncoderEdge(g: Globals, now: nat, clk: Level, dt: Level): (r: Globals)
    ensures EdgeAccepted(g, now) ==> r.lastInterruptTime == now
    ensures EdgeAccepted(g, now) && clk != dt ==> r.virtualPosition == g.virtualPosition + 1
    ensures EdgeAccepted(g, now) && clk == dt ==> r.virtualPosition == g.virtualPosition - 1
    ensures !EdgeAccepted(g, now) ==> r == g
    // only the two variables shared with the main loop change
    ensures r == g.(virtualPosition := r.virtualPosition, lastInterruptTime := r.lastInterruptTime)
  {
    if EdgeAccepted(g, now) then
      g.(virtualPosition := if clk != dt then g.virtualPosition + 1 else g.virtualPosition - 1,
         lastInterruptTime := now)
    else g
  }

  /** A long press fires in this iteration: held, past the threshold, not yet handled. */
  predicate LongPressFires(g: Globals, now: nat, button: Level)
  {
    button == Low && g.buttonActive && !g.longPressHandled && now - g.pressStartTime > LONG_PRESS_TIME
  }

  /** A short press completes in this iteration: released without a long press. */
  predicate ConfirmFires(g: Globals, button: Level)
  {
    button == High && g.buttonActive && !g.longPressHandled
  }

  /** Part A of the loop: press edge, long press (mute toggle), release (confirm). */
  function ButtonPhase(g: Globals, now: nat, button: Level): (r: Effect)
    // the press state follows the pin level
    ensures r.after.buttonActive == (button == Low)
    ensures button == Low && !g.buttonActive ==> r.after.pressStartTime == now && !r.after.longPressHandled
    ensures !(button == Low && !g.buttonActive) ==> r.after.pressStartTime == g.pressStartTime
    // mute flips exactly when a long press fires, which marks the press handled
    ensures r.after.isMuted == (g.isMuted != LongPressFires(g, now, button))
    ensures LongPressFires(g, now, button) ==> r.after.longPressHandled && r.cmds == BeepCommands(MUTE_BEEP)
    ensures !(button == Low && !g.buttonActive) && !LongPressFires(g, now, button) ==>
              r.after.longPressHandled == g.longPressHandled
    // a release without a long press confirms the highlighted waveform
    ensures ConfirmFires(g, button) ==> r.after.selectedMode == g.menuIndex && r.after.uiState == Playing
    ensures ConfirmFires(g, button) ==> r.cmds == BeepCommands(CONFIRM_BEEP)
    ensures !ConfirmFires(g, button) ==> r.after.selectedMode == g.selectedMode && r.after.uiState == g.uiState
    // a beep always forces the next audio update and clears the frequency cache
    ensures LongPressFires(g, now, button) || ConfirmFires(g, button) ==> r.after.forceUpdate && r.after.lastAppliedFreq == 0
    ensures !LongPressFires(g, now, button) && !ConfirmFires(g, button) ==>
              r.cmds == [] && r.after.forceUpdate == g.forceUpdate && r.after.lastAppliedFreq == g.lastAppliedFreq
    // nothing outside the button, mute, selection and cache flags changes
    ensures r.after == g.(buttonActive := r.after.buttonActive, pressStartTime := r.after.pressStartTime,
                          longPressHandled := r.after.longPressHandled, isMuted := r.after.isMuted,
                          selectedMode := r.after.selectedMode, uiState := r.after.uiState,
                          forceUpdate := r.after.forceUpdate, lastAppliedFreq := r.after.lastAppliedFreq)
  {
    var pressed := PressEdge(g, now, button);
    var held := LongPress(pressed, now, button);
    var released := Release(held.after, button);
    Effect(released.after, held.cmds + released.cmds)
  }

  /** The press edge: record when the press started and arm the long press. */
  function PressEdge(g: Globals, now: nat, button: Level): Globals
  {
    if button == Low && !g.buttonActive
    then g.(buttonActive := true, pressStartTime := now, longPressHandled := false)
    else g
  }

  /** While held: past the threshold and not yet handled, toggle mute and beep. */
  function LongPress(g: Globals, now: nat, button: Level): Effect
  {
    if g.buttonActive && button == Low && now - g.pressStartTime > LONG_PRESS_TIME && !g.longPressHandled then
      var beep := FeedbackTone(g.(isMuted := !g.isMuted, longPressHandled := true), MUTE_BEEP);
      Effect(beep.after.(forceUpdate := true), beep.cmds)
    else Effect(g, [])
  }

  /** The release edge: unless a long press was handled, confirm the highlighted waveform and beep. */
  function Release(g: Globals, button: Level): Effect
  {
    if button == High && g.buttonActive then
      if !g.longPressHandled then
        var beep := FeedbackTone(g.(buttonActive := false, selectedMode := g.menuIndex, uiState := Playing), CONFIRM_BEEP);
        Effect(beep.after.(forceUpdate := true), beep.cmds)
      else Effect(g.(buttonActive := false), [])
    else Effect(g, [])
  }

  /** Part B, first half: an encoder movement since the last look reopens the menu. */
  function EncoderCheck(g: Globals, now: nat): (r: Globals)
    ensures r.lastPosition == g.virtualPosition
    ensures g.virtualPosition != g.lastPosition ==>
              r == g.(lastPosition := g.virtualPosition, menuIndex := r.menuIndex,
                      uiState := Menu, lastInteractionTime := now)
    ensures g.virtualPosition != g.lastPosition ==> r.menuIndex == Abs(g.virtualPosition) % MENU_ITEMS
    ensures 0 <= r.menuIndex < MENU_ITEMS || r.menuIndex == g.menuIndex
    ensures g.virtualPosition == g.lastPosition ==> r == g
  {
    if g.virtualPosition != g.lastPosition then
      g.(lastPosition := g.virtualPosition, menuIndex := Abs(g.virtualPosition) % MENU_ITEMS,
         uiState := Menu, lastInteractionTime := now)
    else g
  }

  /** Part B, second half: the menu closes after ten idle seconds, whether or not a waveform was chosen. */
  function MenuTimeout(g: Globals, now: nat): (r: Globals)
    ensures g.uiState == Menu && now - g.lastInteractionTime > MENU_TIMEOUT ==> r.uiState == Playing
    ensures g.uiState == Playing ==> r.uiState == Playing
    ensures now - g.lastInteractionTime <= MENU_TIMEOUT ==> r.uiState == g.uiState
    ensures r == g.(uiState := r.uiState)
  {
    if g.uiState == Menu && now - g.lastInteractionTime > MENU_TIMEOUT then g.(uiState := Playing) else g
  }

  /** The conditioned globals of an audio pass, before any write. */
  function Conditioned(g: Globals, now: nat, pitch: int, tone: int): Globals
  {
    var p := ConditionPitch(g.currentPitch, pitch, g.lastKnobMoveTime, now);
    var t := ConditionTone(g.currentTone, tone);
    g.(currentPitch := p.pitch, lastKnobMoveTime := p.lastMove, currentTone := t.tone)
  }

  /** Whether an audio pass recomputes its outputs: a knob was accepted or an update is forced. */
  predicate AudioUpdates(g: Globals, now: nat, pitch: int, tone: int)
  {
    || ConditionPitch(g.currentPitch, pitch, g.lastKnobMoveTime, now).accepted
    || ConditionTone(g.currentTone, tone).accepted
    || g.forceUpdate
  }

  /**
   * Part C, sound enabled: condition the knobs, then write frequency and
   * duty through the write-suppression cache, or, in noise mode, write a
   * random duty and a random frequency from the pitch-dependent band.
   */
  function Audio(g: Globals, now: nat, pitch: int, tone: int, dutyDraw: nat, freqDraw: nat): (r: Effect)
    ensures var c := Conditioned(g, now, pitch, tone);
            !AudioUpdates(g, now, pitch, tone) ==> r == Effect(c, [])
    // standard modes: a write is issued only when its target differs from the cache or an update is forced
    ensures var c := Conditioned(g, now, pitch, tone);
            var f := TargetFrequency(c.currentPitch);
            var d := TargetDuty(c.currentTone);
            AudioUpdates(g, now, pitch, tone) && g.selectedMode != NOISE_MODE ==>
              && r.after == c.(lastAppliedFreq := f, lastAppliedDuty := d, forceUpdate := false)
              && (SetFreq(f) in r.cmds <==> f != g.lastAppliedFreq || g.forceUpdate)
              && (SetDuty(d) in r.cmds <==> d != g.lastAppliedDuty || g.forceUpdate)
              && (forall k :: 0 <= k < |r.cmds| ==> r.cmds[k] == SetFreq(f) || r.cmds[k] == SetDuty(d))
              && (|r.cmds| == 2 ==> r.cmds[0].SetFreq?)
              && |r.cmds| == (if f != g.lastAppliedFreq || g.forceUpdate then 1 else 0)
                            + (if d != g.lastAppliedDuty || g.forceUpdate then 1 else 0)
    // noise mode: one random duty below 255, then one random frequency in [600, ceiling), caches untouched
    ensures var c := Conditioned(g, now, pitch, tone);
            var ceiling := NoiseCeiling(c.currentPitch);
            AudioUpdates(g, now, pitch, tone) && g.selectedMode == NOISE_MODE ==>
              && r.after == c.(forceUpdate := false)
              && |r.cmds| == 2 && r.cmds[0].SetDuty? && r.cmds[1].SetFreq?
              && 0 <= r.cmds[0].duty < 255
              && NOISE_FLOOR <= r.cmds[1].hz
              && (r.cmds[1].hz < ceiling || r.cmds[1].hz == NOISE_FLOOR)
  {
    var c := Conditioned(g, now, pitch, tone);
    if AudioUpdates(g, now, pitch, tone) then WriteTargets(c, dutyDraw, freqDraw) else Effect(c, [])
  }

  /** The writes of an audio update from the conditioned knobs: noise mode, or the cached standard writes. */
  function WriteTargets(c: Globals, dutyDraw: nat, freqDraw: nat): Effect
  {
    var f := TargetFrequency(c.currentPitch);
    var d := TargetDuty(c.currentTone);
    if c.selectedMode == NOISE_MODE then
      var ceiling := NoiseCeiling(c.currentPitch);
      Effect(c.(forceUpdate := false),
             [SetDuty(Random(0, 255, dutyDraw)), SetFreq(Random(NOISE_FLOOR, ceiling, freqDraw))])
    else
      var freqWrite := if f != c.lastAppliedFreq || c.forceUpdate then [SetFreq(f)] else [];
      var dutyWrite := if d != c.lastAppliedDuty || c.forceUpdate then [SetDuty(d)] else [];
      Effect(c.(lastAppliedFreq := f, lastAppliedDuty := d, forceUpdate := false), freqWrite + dutyWrite)
  }

  /** Part C, sound disabled: silence the peripheral once, on the edge into silence. */
  function Silence(g: Globals): (r: Effect)
    ensures r.after == g.(lastAppliedDuty := 0)
    ensures g.lastAppliedDuty != 0 ==> r.cmds == [SetDuty(0)]
    ensures g.lastAppliedDuty == 0 ==> r.cmds == []
  {
    if g.lastAppliedDuty != 0 then Effect(g.(lastAppliedDuty := 0), [SetDuty(0)]) else Effect(g, [])
  }

  /** One iteration of `loop`, phase by phase, in the order the source runs them. */
  function LoopStep(g: Globals, inp: LoopInput): Effect
  {
    var controls := Controls(g, inp);
    var output := Output(controls.after, inp);
    Effect(output.after, controls.cmds + output.cmds)
  }

  /** Parts A and B of the loop: the button, then the encoder check and the menu timeout. */
  function Controls(g: Globals, inp: LoopInput): (r: Effect)
    // the interrupt handler's variables and the knob and duty state are left to the handler and to part C
    ensures r.after.virtualPosition == g.virtualPosition && r.after.lastInterruptTime == g.lastInterruptTime
    ensures r.after.lastAppliedDuty == g.lastAppliedDuty
    ensures r.after.currentPitch == g.currentPitch && r.after.currentTone == g.currentTone
  {
    var button := ButtonPhase(g, inp.now, inp.button);
    Effect(MenuTimeout(EncoderCheck(button.after, inp.now), inp.now), button.cmds)
  }

  /** Part C of the loop: the audio engine when sound is enabled, the silence branch otherwise. */
  function Output(g: Globals, inp: LoopInput): (r: Effect)
    ensures Silent(g) ==> r == Silence(g)
    // only the knob, cache and force variables change
    ensures r.after == g.(currentPitch := r.after.currentPitch, currentTone := r.after.currentTone,
                          lastKnobMoveTime := r.after.lastKnobMoveTime, lastAppliedFreq := r.after.lastAppliedFreq,
                          lastAppliedDuty := r.after.lastAppliedDuty, forceUpdate := r.after.forceUpdate)
  {
    if !g.isMuted && g.selectedMode != NO_MODE
    then Audio(g, inp.now, inp.pitch, inp.tone, inp.dutyDraw, inp.freqDraw)
    else Silence(g)
  }

  /** Knob readings as the sampler delivers them. */
  predicate ReadingsInRange(inp: LoopInput)
  {
    0 <= inp.pitch <= ADC_MAX && 0 <= inp.tone <= ADC_MAX
  }

  /** Every loop pass keeps the state invariant. */
  lemma LoopStepKeepsInvariant(g: Globals, inp: LoopInput)
    requires Invariant(g) && ReadingsInRange(inp)
    ensures Invariant(LoopStep(g, inp).after)
  {
    var button := ButtonPhase(g, inp.now, inp.button);
    assert Invariant(button.after);
    var moved := EncoderCheck(button.after, inp.now);
    assert Invariant(moved);
    var ui := MenuTimeout(moved, inp.now);
    assert Invariant(ui);
    if !ui.isMuted && ui.selectedMode != NO_MODE {
      AudioKeepsInvariant(ui, inp.now, inp.pitch, inp.tone, inp.dutyDraw, inp.freqDraw);
    }
  }

  /** An audio pass keeps the state invariant: the caches only ever hold in-range targets. */
  lemma AudioKeepsInvariant(g: Globals, now: nat, pitch: int, tone: int, dutyDraw: nat, freqDraw: nat)
    requires Invariant(g) && 0 <= pitch <= ADC_MAX && 0 <= tone <= ADC_MAX
    ensures Invariant(Audio(g, now, pitch, tone, dutyDraw, freqDraw).after)
  {
    var c := Conditioned(g, now, pitch, tone);
    assert Invariant(c);
  }

  /** An encoder movement seen by the loop always reopens the menu, whatever the state, and restarts its timeout. */
  lemma EncoderMoveShowsMenu(g: Globals, inp: LoopInput)
    requires g.virtualPosition != g.lastPosition
    ensures var r := LoopStep(g, inp).after;
            && r.uiState == Menu
            && r.lastInteractionTime == inp.now
            && r.lastPosition == g.virtualPosition
            && r.menuIndex == Abs(g.virtualPosition) % MENU_ITEMS
  {
  }

  /** After every loop pass the loop has caught up with the encoder and the highlighted item is |position| mod 4. */
  lemma LoopTracksPosition(g: Globals, inp: LoopInput)
    requires Invariant(g)
    ensures var r := LoopStep(g, inp).after;
            && r.virtualPosition == r.lastPosition == g.virtualPosition
            && r.menuIndex == Abs(r.virtualPosition) % MENU_ITEMS
  {
    var button := ButtonPhase(g, inp.now, inp.button);
    assert button.after.virtualPosition == g.virtualPosition && button.after.lastPosition == g.lastPosition;
    assert button.after.menuIndex == g.menuIndex;
    var moved := EncoderCheck(button.after, inp.now);
    assert moved.virtualPosition == moved.lastPosition == g.virtualPosition;
    assert moved.menuIndex == Abs(g.virtualPosition) % MENU_ITEMS;
    var controls := Controls(g, inp);
    assert controls.after == MenuTimeout(moved, inp.now);
    var output := Output(controls.after, inp);
    assert LoopStep(g, inp).after == output.after;
  }

  /** The menu times out into PLAYING even when no waveform was ever chosen (only the display hides this). */
  lemma MenuTimesOutWithoutSelection(pitch: int, tone: int, inp: LoopInput)
    requires inp.button == High && inp.now > MENU_TIMEOUT
    ensures var r := LoopStep(Boot(pitch, tone), inp).after;
            r.uiState == Playing && r.selectedMode == NO_MODE
  {
  }

  /** A press released after 800 ms confirms the highlighted waveform and leaves mute alone. */
  lemma ShortPressConfirms(g: Globals, t: nat)
    requires !g.buttonActive
    ensures var down := ButtonPhase(g, t, Low);
            var still := ButtonPhase(down.after, t + 799, Low);
            var up := ButtonPhase(still.after, t + 800, High);
            && down.cmds == [] && still.cmds == []
            && up.after.selectedMode == g.menuIndex && up.after.uiState == Playing
            && up.after.isMuted == g.isMuted
            && up.cmds == BeepCommands(CONFIRM_BEEP)
  {
  }

  /** A press still held at 801 ms toggles mute once; its release then selects nothing. */
  lemma LongPressMutes(g: Globals, t: nat, later: nat)
    requires !g.buttonActive && later >= t + 801
    ensures var down := ButtonPhase(g, t, Low);
            var long := ButtonPhase(down.after, t + 801, Low);
            var held := ButtonPhase(long.after, later, Low);
            var up := ButtonPhase(held.after, later, High);
            && long.after.isMuted == !g.isMuted && long.cmds == BeepCommands(MUTE_BEEP)
            && held.after.isMuted == !g.isMuted && held.cmds == []
            && up.after.isMuted == !g.isMuted && up.cmds == []
            && up.after.selectedMode == g.selectedMode && up.after.uiState == g.uiState
  {
  }

  /**
   * Write suppression in the standard modes: a second audio pass over the
   * same knob readings, at the same time or later, writes nothing.
   */
  lemma StandardAudioSettles(g: Globals, now: nat, later: nat, pitch: int, tone: int, d1: nat, f1: nat, d2: nat, f2: nat)
    requires g.selectedMode != NOISE_MODE && now <= later
    ensures var first := Audio(g, now, pitch, tone, d1, f1);
            Audio(first.after, later, pitch, tone, d2, f2).cmds == []
  {
    var first := Audio(g, now, pitch, tone, d1, f1);
    var c := Conditioned(g, now, pitch, tone);
    var c2 := Conditioned(first.after, later, pitch, tone);
    if AudioUpdates(g, now, pitch, tone) {
      assert c2.currentPitch == c.currentPitch && c2.currentTone == c.currentTone;
    } else {
      assert !AudioUpdates(first.after, later, pitch, tone);
    }
  }

  /** After a confirmation beep the next standard-mode update rewrites frequency and duty, whatever the caches hold. */
  lemma FeedbackForcesRewrite(g: Globals, beep: int, now: nat, pitch: int, tone: int, dutyDraw: nat, freqDraw: nat)
    requires g.selectedMode != NOISE_MODE
    ensures var after := FeedbackTone(g, beep).after;
            var audio := Audio(after, now, pitch, tone, dutyDraw, freqDraw);
            var c := Conditioned(after, now, pitch, tone);
            && SetFreq(TargetFrequency(c.currentPitch)) in audio.cmds
            && SetDuty(TargetDuty(c.currentTone)) in audio.cmds
  {
  }

  /** Noise mode never records what it writes: both caches keep their old values. */
  lemma NoiseLeavesCaches(g: Globals, now: nat, pitch: int, tone: int, dutyDraw: nat, freqDraw: nat)
    requires g.selectedMode == NOISE_MODE
    ensures var r := Audio(g, now, pitch, tone, dutyDraw, freqDraw).after;
            r.lastAppliedDuty == g.lastAppliedDuty && r.lastAppliedFreq == g.lastAppliedFreq
  {
  }
}
