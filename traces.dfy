/**
 * Runs of the device: the encoder interrupt and the main loop interleave,
 * one whole handler or loop pass at a time. The properties here hold over
 * every such run and are proved by induction on it.
 */
module Traces {
  import opened Arduino
  import opened Sampler
  import opened Controller

  datatype Option<T> = None | Some(value: T)

  /** What can happen next: the encoder interrupt fires, or the main loop runs once. */
  datatype Event = Edge(now: nat, clk: Level, dt: Level) | Step(inp: LoopInput)

  function Apply(g: Globals, e: Event): Effect
  {
    match e
    case Edge(now, clk, dt) => Effect(EncoderEdge(g, now, clk, dt), [])
    case Step(inp) => LoopStep(g, inp)
  }

  /** The state after a run, and every peripheral write of the run, in order. */
  function Run(g: Globals, evs: seq<Event>): Effect
    decreases |evs|
  {
    if evs == [] then Effect(g, [])
    else
      var first := Apply(g, evs[0]);
      var rest := Run(first.after, evs[1..]);
      Effect(rest.after, first.cmds + rest.cmds)
  }

  /** Every loop pass of the run sees knob readings the sampler can deliver. */
  predicate AllReadingsInRange(evs: seq<Event>)
  {
    forall i :: 0 <= i < |evs| && evs[i].Step? ==> ReadingsInRange(evs[i].inp)
  }

  /** The duty the peripheral was last given, `hw` if `cmds` sets none. */
  function LastDuty(hw: Option<int>, cmds: seq<Command>): Option<int>
    decreases |cmds|
  {
    if cmds == [] then hw
    else if cmds[|cmds| - 1].SetDuty? then Some(cmds[|cmds| - 1].duty)
    else LastDuty(hw, cmds[..|cmds| - 1])
  }

  lemma {:induction false} LastDutyAppend(hw: Option<int>, a: seq<Command>, b: seq<Command>)
    ensures LastDuty(hw, a + b) == LastDuty(LastDuty(hw, a), b)
    decreases |b|
  {
    if b != [] {
      assert (a + b)[..|a + b| - 1] == a + b[..|b| - 1];
      LastDutyAppend(hw, a, b[..|b| - 1]);
    } else {
      assert a + b == a;
    }
  }

  /** The state invariant holds throughout every run. */
  lemma {:induction false} RunKeepsInvariant(g: Globals, evs: seq<Event>)
    requires Invariant(g) && AllReadingsInRange(evs)
    ensures Invariant(Run(g, evs).after)
    decreases |evs|
  {
    if evs != [] {
      if evs[0].Step? {
        LoopStepKeepsInvariant(g, evs[0].inp);
      }
      var tail := evs[1..];
      assert forall i :: 0 <= i < |tail| ==> tail[i] == evs[i + 1];
      RunKeepsInvariant(Apply(g, evs[0]).after, tail);
    }
  }

  /**
   * The silence obligation at a loop boundary: a silent device either has
   * a silenced peripheral or still owes the write (its cache is not 0).
   */
  predicate SilenceOwed(g: Globals, hw: Option<int>)
  {
    Silent(g) ==> hw == Some(0) || g.lastAppliedDuty != 0
  }

  /** A loop pass that ends silent leaves the peripheral at duty 0. */
  lemma StepSilences(g: Globals, inp: LoopInput, hw: Option<int>)
    requires SilenceOwed(g, hw)
    ensures var step := LoopStep(g, inp);
            Silent(step.after) ==> LastDuty(hw, step.cmds) == Some(0)
  {
    var controls := Controls(g, inp);
    var output := Output(controls.after, inp);
    assert LoopStep(g, inp) == Effect(output.after, controls.cmds + output.cmds);
    if Silent(output.after) {
      ControlsOweSilence(g, inp, hw);
      assert output == Silence(controls.after);
      LastDutyAppend(hw, controls.cmds, output.cmds);
    }
  }

  /** The button and menu parts keep the silence obligation: a beep they play ends on duty 0. */
  lemma ControlsOweSilence(g: Globals, inp: LoopInput, hw: Option<int>)
    requires SilenceOwed(g, hw)
    ensures var controls := Controls(g, inp);
            SilenceOwed(controls.after, LastDuty(hw, controls.cmds))
  {
    var button := ButtonPhase(g, inp.now, inp.button);
    if LongPressFires(g, inp.now, inp.button) || ConfirmFires(g, inp.button) {
      assert LastDuty(hw, button.cmds) == Some(0);
    } else {
      assert button.cmds == [] && Silent(button.after) == Silent(g);
    }
  }

  /**
   * Mute is effective: in every run from a state that honours the silence
   * obligation, the obligation is kept, and whenever a loop pass ends with
   * the device muted or without a waveform, the last duty written is 0.
   */
  lemma {:induction false} SilenceIsKept(g: Globals, hw: Option<int>, evs: seq<Event>)
    requires Invariant(g) && AllReadingsInRange(evs) && SilenceOwed(g, hw)
    ensures var run := Run(g, evs);
            SilenceOwed(run.after, LastDuty(hw, run.cmds))
    ensures var run := Run(g, evs);
            evs != [] && evs[|evs| - 1].Step? && Silent(run.after) ==> LastDuty(hw, run.cmds) == Some(0)
    decreases |evs|
  {
    if evs != [] {
      var first := Apply(g, evs[0]);
      var tail := evs[1..];
      assert forall i :: 0 <= i < |tail| ==> tail[i] == evs[i + 1];
      var hw' := LastDuty(hw, first.cmds);
      EventKeepsSilence(g, hw, evs[0]);
      SilenceIsKept(first.after, hw', tail);
      LastDutyAppend(hw, first.cmds, Run(first.after, tail).cmds);
    }
  }

  /** One event keeps the invariant and the silence obligation; a loop pass that ends silent ends at duty 0. */
  lemma EventKeepsSilence(g: Globals, hw: Option<int>, e: Event)
    requires Invariant(g) && SilenceOwed(g, hw) && (e.Step? ==> ReadingsInRange(e.inp))
    ensures var first := Apply(g, e);
            Invariant(first.after) && SilenceOwed(first.after, LastDuty(hw, first.cmds))
    ensures var first := Apply(g, e);
            e.Step? && Silent(first.after) ==> LastDuty(hw, first.cmds) == Some(0)
  {
    match e
    case Step(inp) =>
      StepSilences(g, inp, hw);
      LoopStepKeepsInvariant(g, inp);
    case Edge(now, clk, dt) =>
      var r := EncoderEdge(g, now, clk, dt);
      assert r.isMuted == g.isMuted && r.selectedMode == g.selectedMode && r.lastAppliedDuty == g.lastAppliedDuty;
      assert Invariant(r);
  }

  /** From power-on, every loop pass that ends muted or unselected leaves the peripheral at duty 0. */
  lemma BootMuteIsEffective(pitch: int, tone: int, evs: seq<Event>)
    requires 0 <= pitch <= ADC_MAX && 0 <= tone <= ADC_MAX && AllReadingsInRange(evs)
    requires evs != [] && evs[|evs| - 1].Step?
    ensures var run := Run(Boot(pitch, tone), evs);
            Silent(run.after) ==> LastDuty(None, run.cmds) == Some(0)
  {
    SilenceIsKept(Boot(pitch, tone), None, evs);
  }

  /**
   * Edge-triggered silence: while the device stays silent and the button
   * stays up, a run writes duty 0 at most once, and not at all if the
   * cache already says 0.
   */
  lemma {:induction false} SilentIdleWritesOnce(g: Globals, evs: seq<Event>)
    requires Silent(g) && !g.buttonActive
    requires forall i :: 0 <= i < |evs| && evs[i].Step? ==> evs[i].inp.button == High
    ensures var cmds := Run(g, evs).cmds;
            cmds == [] || (cmds == [SetDuty(0)] && g.lastAppliedDuty != 0)
    ensures Silent(Run(g, evs).after) && !Run(g, evs).after.buttonActive
    decreases |evs|
  {
    if evs != [] {
      var first := Apply(g, evs[0]);
      var tail := evs[1..];
      assert forall i :: 0 <= i < |tail| ==> tail[i] == evs[i + 1];
      IdleEventWritesOnce(g, evs[0]);
      SilentIdleWritesOnce(first.after, tail);
    }
  }

  /** One event of a silent, idle device: at most the one write of duty 0, after which the cache says 0. */
  lemma IdleEventWritesOnce(g: Globals, e: Event)
    requires Silent(g) && !g.buttonActive && (e.Step? ==> e.inp.button == High)
    ensures var first := Apply(g, e);
            && Silent(first.after) && !first.after.buttonActive
            && (first.after.lastAppliedDuty == 0 || first.after.lastAppliedDuty == g.lastAppliedDuty)
            && (first.cmds == [] || (first.cmds == [SetDuty(0)] && g.lastAppliedDuty != 0 && first.after.lastAppliedDuty == 0))
  {
    if e.Step? {
      var controls := Controls(g, e.inp);
      var output := Output(controls.after, e.inp);
      assert controls.cmds == [] && Silent(controls.after) && !controls.after.buttonActive;
      assert Apply(g, e) == Effect(output.after, controls.cmds + output.cmds);
    }
  }

  /** The number of events in a run that flip the mute flag. */
  function MuteFlips(g: Globals, evs: seq<Event>): nat
    decreases |evs|
  {
    if evs == [] then 0
    else
      var first := Apply(g, evs[0]);
      (if first.after.isMuted != g.isMuted then 1 else 0) + MuteFlips(first.after, evs[1..])
  }

  /** However long a press is held, it flips mute at most once, and not at all once its long press was handled. */
  lemma {:induction false} HeldPressFlipsMuteOnce(g: Globals, evs: seq<Event>)
    requires g.buttonActive
    requires forall i :: 0 <= i < |evs| && evs[i].Step? ==> evs[i].inp.button == Low
    ensures MuteFlips(g, evs) <= (if g.longPressHandled then 0 else 1)
    decreases |evs|
  {
    if evs != [] {
      var first := Apply(g, evs[0]);
      var tail := evs[1..];
      assert forall i :: 0 <= i < |tail| ==> tail[i] == evs[i + 1];
      HeldPressFlipsMuteOnce(first.after, tail);
    }
  }

  /** The times of the encoder edges the interrupt handler accepts during a run, in order. */
  function AcceptedEdges(g: Globals, evs: seq<Event>): seq<nat>
    decreases |evs|
  {
    if evs == [] then []
    else
      var first := Apply(g, evs[0]);
      var mine := if evs[0].Edge? && EdgeAccepted(g, evs[0].now) then [evs[0].now] else [];
      mine + AcceptedEdges(first.after, evs[1..])
  }

  /**
   * Debounce: accepted edges are more than 10 ms apart (and more than 10 ms
   * after the last one before the run), and the handler remembers the latest.
   */
  lemma {:induction false} DebounceSpacing(g: Globals, evs: seq<Event>)
    ensures var acc := AcceptedEdges(g, evs);
            forall i :: 0 < i < |acc| ==> acc[i] - acc[i - 1] > DEBOUNCE_MS
    ensures var acc := AcceptedEdges(g, evs);
            |acc| > 0 ==> acc[0] - g.lastInterruptTime > DEBOUNCE_MS
    ensures var acc := AcceptedEdges(g, evs);
            Run(g, evs).after.lastInterruptTime == if |acc| > 0 then acc[|acc| - 1] else g.lastInterruptTime
    decreases |evs|
  {
    if evs != [] {
      var first := Apply(g, evs[0]);
      var tail := evs[1..];
      EventMovesEncoderOnce(g, evs[0]);
      DebounceSpacing(first.after, tail);
      var mine := if evs[0].Edge? && EdgeAccepted(g, evs[0].now) then [evs[0].now] else [];
      var rest := AcceptedEdges(first.after, tail);
      var acc := mine + rest;
      assert AcceptedEdges(g, evs) == acc;
      if mine != [] {
        assert first.after.lastInterruptTime == evs[0].now;
        forall i | 0 < i < |acc|
          ensures acc[i] - acc[i - 1] > DEBOUNCE_MS
        {
          if i > 1 {
            assert acc[i] == rest[i - 1] && acc[i - 1] == rest[i - 2];
          }
        }
      }
    }
  }

  /** The position moves by at most one step per accepted edge; loop passes never move it. */
  lemma {:induction false} PositionMovesPerAcceptedEdge(g: Globals, evs: seq<Event>)
    ensures Abs(Run(g, evs).after.virtualPosition - g.virtualPosition) <= |AcceptedEdges(g, evs)|
    decreases |evs|
  {
    if evs != [] {
      var first := Apply(g, evs[0]);
      EventMovesEncoderOnce(g, evs[0]);
      PositionMovesPerAcceptedEdge(first.after, evs[1..]);
    }
  }

  /** One event moves the position by at most one step, and only as an accepted edge, which it records. */
  lemma EventMovesEncoderOnce(g: Globals, e: Event)
    ensures var r := Apply(g, e).after;
            if e.Edge? && EdgeAccepted(g, e.now)
            then r.lastInterruptTime == e.now && Abs(r.virtualPosition - g.virtualPosition) == 1
            else r.lastInterruptTime == g.lastInterruptTime && r.virtualPosition == g.virtualPosition
  {
    if e.Step? {
      var controls := Controls(g, e.inp);
      var output := Output(controls.after, e.inp);
      assert Apply(g, e).after == output.after;
    }
  }

  /** Power-on state, as far as the first loop pass is concerned. */
  predicate AwaitingFirstPass(g: Globals)
  {
    !g.buttonActive && g.isMuted && g.lastAppliedDuty != 0
  }

  /** Boot is silent first: the first write any run from power-on makes is duty 0. */
  lemma {:induction false} FirstWriteSilences(g: Globals, evs: seq<Event>)
    requires AwaitingFirstPass(g)
    ensures var cmds := Run(g, evs).cmds;
            cmds == [] || cmds[0] == SetDuty(0)
    decreases |evs|
  {
    if evs != [] {
      var first := Apply(g, evs[0]);
      if evs[0].Step? {
        assert first.cmds == [SetDuty(0)];
      } else {
        FirstWriteSilences(first.after, evs[1..]);
      }
    }
  }

  lemma BootWritesSilenceFirst(pitch: int, tone: int, evs: seq<Event>)
    ensures var cmds := Run(Boot(pitch, tone), evs).cmds;
            cmds == [] || cmds[0] == SetDuty(0)
  {
    FirstWriteSilences(Boot(pitch, tone), evs);
  }
}
