/**
 * The firmware as an object: its global variables are the fields of
 * `Device`, and the interrupt handler, the feedback beep and one pass of
 * the main loop are methods that update them in place and return the
 * writes they issue to the PWM tone peripheral, in order. Each method is
 * proved to agree with its step function in module Controller, where the
 * properties of the steps are stated and proved.
 */
module SoundToy {
  import opened Arduino
  import opened Sampler
  import opened Conditioning
  import opened Controller

  class Device {
    var currentUIState: UIState
    var lastInteractionTime: nat
    var menuIndex: int
    var selectedMode: int
    var buttonActive: bool
    var longPressHandled: bool
    var pressStartTime: nat
    var isMuted: bool
    var virtualPosition: int
    var lastPosition: int
    var lastInterruptTime: nat
    var currentPitch: int
    var currentTone: int
    var lastAppliedFreq: int
    var lastAppliedDuty: int
    var lastKnobMoveTime: nat
    var forceUpdate: bool

    /** The fields as a value. */
    function Snapshot(): Globals
      reads this
    {
      Globals(currentUIState, lastInteractionTime, menuIndex, selectedMode, buttonActive,
              longPressHandled, pressStartTime, isMuted, virtualPosition, lastPosition,
              lastInterruptTime, currentPitch, currentTone, lastAppliedFreq, lastAppliedDuty,
              lastKnobMoveTime, forceUpdate)
    }

    ghost predicate Valid()
      reads this
    {
      Invariant(Snapshot())
    }

    /** The globals' initial values; `setup` then reads both knobs once. */
    constructor (pitchSamples: seq<int>, toneSamples: seq<int>)
      requires AdcBlock(pitchSamples) && AdcBlock(toneSamples)
      ensures Valid()
      ensures Snapshot() == Boot(Mean(pitchSamples), Mean(toneSamples))
    {
      var pitch := ReadStableAdc(pitchSamples);
      var tone := ReadStableAdc(toneSamples);
      MeanInRange(pitchSamples);
      MeanInRange(toneSamples);
      currentUIState := Menu;
      lastInteractionTime := 0;
      menuIndex := 0;
      selectedMode := NO_MODE;
      buttonActive := false;
      longPressHandled := false;
      pressStartTime := 0;
      isMuted := true;
      virtualPosition := 0;
      lastPosition := 0;
      lastInterruptTime := 0;
      currentPitch := pitch;
      currentTone := tone;
      lastAppliedFreq := 0;
      lastAppliedDuty := -1;
      lastKnobMoveTime := 0;
      forceUpdate := false;
    }

    /** `updateEncoder`, run on a falling edge at time `now` with the two encoder lines' levels. */
    method UpdateEncoder(now: nat, clk: Level, dt: Level)
      requires Valid()
      requires now >= lastInterruptTime
      modifies this
      ensures Valid()
      ensures Snapshot() == EncoderEdge(old(Snapshot()), now, clk, dt)
    {
      if now - lastInterruptTime > DEBOUNCE_MS {
        if clk != dt {
          virtualPosition := virtualPosition + 1;
        } else {
          virtualPosition := virtualPosition - 1;
        }
        lastInterruptTime := now;
      }
    }

    /** `playFeedbackTone`: the beep's three writes; the cache is invalidated and an update forced. */
    method PlayFeedbackTone(frequency: int) returns (cmds: seq<Command>)
      requires Valid()
      modifies this
      ensures Valid()
      ensures Snapshot() == FeedbackTone(old(Snapshot()), frequency).after
      ensures cmds == BeepCommands(frequency)
    {
      cmds := [SetFreq(frequency), SetDuty(FEEDBACK_DUTY), SetDuty(0)];
      forceUpdate := true;
      lastAppliedFreq := 0;
    }

    /**
     * One pass of `loop`, at time `now`, with the button's level, the 32
     * raw readings of each knob, and the raw draws behind noise mode's two
     * `random` calls.
     */
    method Loop(now: nat, button: Level, pitchSamples: seq<int>, toneSamples: seq<int>,
                dutyDraw: nat, freqDraw: nat) returns (cmds: seq<Command>)
      requires Valid()
      requires AdcBlock(pitchSamples) && AdcBlock(toneSamples)
      requires now >= pressStartTime && now >= lastInteractionTime && now >= lastKnobMoveTime
      modifies this
      ensures Valid()
      ensures var step := LoopStep(old(Snapshot()),
                                   LoopInput(now, button, Mean(pitchSamples), Mean(toneSamples), dutyDraw, freqDraw));
              Snapshot() == step.after && cmds == step.cmds
    {
      ghost var start := Snapshot();
      ghost var inp := LoopInput(now, button, Mean(pitchSamples), Mean(toneSamples), dutyDraw, freqDraw);
      cmds := HandleButton(now, button);
      UpdateMenu(now);
      if !isMuted && selectedMode != NO_MODE {
        var audio := DriveAudio(now, pitchSamples, toneSamples, dutyDraw, freqDraw);
        cmds := cmds + audio;
      } else {
        var silence := SilenceOutput();
        cmds := cmds + silence;
      }
      MeanInRange(pitchSamples);
      MeanInRange(toneSamples);
      LoopStepKeepsInvariant(start, inp);
    }

    /** Part A of `loop`: press edge, long press toggling mute, release confirming the highlighted waveform. */
    method HandleButton(now: nat, button: Level) returns (cmds: seq<Command>)
      requires Valid()
      modifies this
      ensures Valid()
      ensures var button := ButtonPhase(old(Snapshot()), now, button);
              Snapshot() == button.after && cmds == button.cmds
    {
      StartPress(now, button);
      var held := CheckLongPress(now, button);
      var released := CheckRelease(button);
      cmds := held + released;
    }

    /** A falling edge on the button: remember when the press started and arm the long press. */
    method StartPress(now: nat, button: Level)
      requires Valid()
      modifies this
      ensures Valid()
      ensures Snapshot() == PressEdge(old(Snapshot()), now, button)
    {
      if button == Low && !buttonActive {
        buttonActive := true;
        pressStartTime := now;
        longPressHandled := false;
      }
    }

    /** A press held past the threshold and not yet handled toggles mute and beeps at 500 Hz. */
    method CheckLongPress(now: nat, button: Level) returns (cmds: seq<Command>)
      requires Valid()
      modifies this
      ensures Valid()
      ensures var held := LongPress(old(Snapshot()), now, button);
              Snapshot() == held.after && cmds == held.cmds
    {
      cmds := [];
      if buttonActive && button == Low {
        if now - pressStartTime > LONG_PRESS_TIME && !longPressHandled {
          isMuted := !isMuted;
          longPressHandled := true;
          cmds := PlayFeedbackTone(MUTE_BEEP);
          forceUpdate := true;
        }
      }
    }

    /** A release that was not a long press selects the highlighted waveform and beeps at 2000 Hz. */
    method CheckRelease(button: Level) returns (cmds: seq<Command>)
      requires Valid()
      modifies this
      ensures Valid()
      ensures var released := Release(old(Snapshot()), button);
              Snapshot() == released.after && cmds == released.cmds
    {
      cmds := [];
      if button == High && buttonActive {
        buttonActive := false;
        if !longPressHandled {
          selectedMode := menuIndex;
          currentUIState := Playing;
          cmds := PlayFeedbackTone(CONFIRM_BEEP);
          forceUpdate := true;
        }
      }
    }

    /** Part B of `loop`: an encoder movement reopens the menu; ten idle seconds close it. */
    method UpdateMenu(now: nat)
      modifies this
      ensures Snapshot() == MenuTimeout(EncoderCheck(old(Snapshot()), now), now)
    {
      if virtualPosition != lastPosition {
        lastPosition := virtualPosition;
        menuIndex := Abs(virtualPosition) % MENU_ITEMS;
        currentUIState := Menu;
        lastInteractionTime := now;
      }
      if currentUIState == Menu {
        if now - lastInteractionTime > MENU_TIMEOUT {
          currentUIState := Playing;
        }
      }
    }

    /** Part C of `loop` with sound enabled: read and condition both knobs, then write through the cache. */
    method DriveAudio(now: nat, pitchSamples: seq<int>, toneSamples: seq<int>, dutyDraw: nat, freqDraw: nat)
      returns (cmds: seq<Command>)
      requires |pitchSamples| == SAMPLES && |toneSamples| == SAMPLES
      modifies this
      ensures var audio := Audio(old(Snapshot()), now, Mean(pitchSamples), Mean(toneSamples), dutyDraw, freqDraw);
              Snapshot() == audio.after && cmds == audio.cmds
    {
      var newPitch := ReadStableAdc(pitchSamples);
      var newTone := ReadStableAdc(toneSamples);
      var shouldUpdatePitch, shouldUpdateTone := ConditionKnobs(now, newPitch, newTone);
      if shouldUpdatePitch || shouldUpdateTone || forceUpdate {
        cmds := ApplyTargets(dutyDraw, freqDraw);
      } else {
        cmds := [];
      }
    }

    /** An audio update: map the knobs to targets, then write them, through the cache in the standard modes. */
    method ApplyTargets(dutyDraw: nat, freqDraw: nat) returns (cmds: seq<Command>)
      modifies this
      ensures Snapshot() == WriteTargets(old(Snapshot()), dutyDraw, freqDraw).after
      ensures cmds == WriteTargets(old(Snapshot()), dutyDraw, freqDraw).cmds
    {
      cmds := [];
      var targetFrequency := Map(currentPitch, 0, ADC_MAX, MIN_FREQ_SAFE, MAX_FREQ);
      if targetFrequency < MIN_FREQ_SAFE {
        targetFrequency := MIN_FREQ_SAFE;
      }
      var targetDuty := Map(currentTone, 0, ADC_MAX, 0, MAX_DUTY);
      if selectedMode == NOISE_MODE {
        var noiseCeiling := Map(currentPitch, 0, ADC_MAX, NOISE_FLOOR, NOISE_TOP);
        if noiseCeiling < NOISE_FLOOR {
          noiseCeiling := NOISE_FLOOR;
        }
        cmds := [SetDuty(Random(0, 255, dutyDraw)), SetFreq(Random(NOISE_FLOOR, noiseCeiling, freqDraw))];
      } else {
        if targetFrequency != lastAppliedFreq || forceUpdate {
          cmds := cmds + [SetFreq(targetFrequency)];
          lastAppliedFreq := targetFrequency;
        }
        if targetDuty != lastAppliedDuty || forceUpdate {
          cmds := cmds + [SetDuty(targetDuty)];
          lastAppliedDuty := targetDuty;
        }
      }
      forceUpdate := false;
    }

    /** The locking mechanism: pitch hysteresis with the lock window, then tone hysteresis. */
    method ConditionKnobs(now: nat, newPitch: int, newTone: int) returns (shouldUpdatePitch: bool, shouldUpdateTone: bool)
      modifies this
      ensures Snapshot() == Conditioned(old(Snapshot()), now, newPitch, newTone)
      ensures shouldUpdatePitch == ConditionPitch(old(currentPitch), newPitch, old(lastKnobMoveTime), now).accepted
      ensures shouldUpdateTone == ConditionTone(old(currentTone), newTone).accepted
    {
      shouldUpdatePitch, shouldUpdateTone := false, false;
      if Abs(newPitch - currentPitch) > HYSTERESIS {
        currentPitch := newPitch;
        lastKnobMoveTime := now;
        shouldUpdatePitch := true;
      } else if now - lastKnobMoveTime < LOCK_TIMEOUT {
        currentPitch := newPitch;
        shouldUpdatePitch := true;
      }
      if Abs(newTone - currentTone) > HYSTERESIS {
        currentTone := newTone;
        shouldUpdateTone := true;
      }
    }

    /** Part C of `loop` with sound disabled: write duty 0 unless the cache says it is already 0. */
    method SilenceOutput() returns (cmds: seq<Command>)
      modifies this
      ensures Snapshot() == Silence(old(Snapshot())).after && cmds == Silence(old(Snapshot())).cmds
    {
      cmds := [];
      if lastAppliedDuty != 0 {
        cmds := [SetDuty(0)];
        lastAppliedDuty := 0;
      }
    }
  }
}
