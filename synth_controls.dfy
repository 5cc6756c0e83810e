/** The harmonic synth's controller state and the listener's event decoding:
    which action a raw button event stands for, and how each action changes
    key, scale, octave, effect modes, harmonics and volume. */
module SynthControls {
  import opened Launchpad
  import opened SynthCore
  import opened Modular

  /** The listener's globals: key, scale and octave, the reverb and delay
      modes (`fx_states[0]`, `fx_states[1]`), the arpeggiator and drum
      switches, the held harmonics buttons, the Blit harmonics count, the
      master volume and the `running` flag. */
  datatype Controls = Controls(
    key: int, scaleIdx: int, octave: int,
    reverb: int, delay: int,
    arp: bool, drums: int,
    harmsUp: bool, harmsDown: bool, harmonics: int,
    volume: real, running: bool)

  /** Start-up values. */
  const Initial: Controls :=
    Controls(0, 0, 0, 0, 0, false, 0, false, false, MinHarmonics, 0.6, true)

  /** The ranges every controller stays in, given `n` scales. */
  ghost predicate ControlsOk(c: Controls, n: int)
  {
    && 0 <= c.key < 12
    && 0 <= c.scaleIdx < n
    && -OctaveBound <= c.octave <= OctaveBound
    && 0 <= c.reverb < 4 && 0 <= c.delay < 4 && 0 <= c.drums < 4
    && MinHarmonics <= c.harmonics <= MaxHarmonics
    && 0.0 <= c.volume <= 1.0
  }

  // ---------------------------------------------------------------- effect tables

  function ReverbMix(mode: int): real
    requires 0 <= mode < 4
  {
    [0.0, 0.3, 0.5, 0.65][mode]
  }

  function ReverbSize(mode: int): real
    requires 0 <= mode < 4
  {
    [0.5, 0.4, 0.7, 0.95][mode]
  }

  function DelayInput(mode: int): real
    requires 0 <= mode < 4
  {
    [0.0, 0.3, 0.45, 0.6][mode]
  }

  function DelayTime(mode: int): real
    requires 0 <= mode < 4
  {
    [0.0075, 0.2, 0.4, 1.0][mode]
  }

  function DelayFeedback(mode: int): real
    requires 0 <= mode < 4
  {
    [0.55, 0.6, 0.7, 0.8][mode]
  }

  /** Mode 0 of each table is the value its signal starts with (dry reverb of
      size 0.5; delay of 7.5 ms, feedback 0.55, no input), so the effect
      signals are always the table entries of the current modes; every delay
      time is positive and the wetter modes never shorten it. */
  lemma EffectTablesStartAtInitial(mode: int)
    requires 0 <= mode < 4
    ensures ReverbMix(0) == 0.0 && ReverbSize(0) == 0.5
    ensures DelayInput(0) == 0.0 && DelayTime(0) == 0.0075 && DelayFeedback(0) == 0.55
    ensures 0.0 < DelayTime(mode) && (mode > 0 ==> DelayTime(mode) >= 0.2)
    ensures 0.0 <= ReverbMix(mode) < 1.0 && 0.0 <= DelayInput(mode) < 1.0 && DelayFeedback(mode) < 1.0
  {
  }

  // ---------------------------------------------------------------- actions

  datatype Action =
    | KeyUp | KeyDown | ScaleUp | ScaleDown
    | HarmsUpHold(up: bool) | HarmsDownHold(down: bool)
    | VolDown | VolUp
    | CycleReverb | CycleDelay | ToggleArp | CycleDrums | OctaveUp | OctaveDown
    | Power
    | PadOn(pid: int, x: int, yl: int) | PadOff(pid: int, x: int, yl: int)
    | Ignore

  /** The action of a raw event `(bid, state)`: a top button acts on press
      (and buttons 4/5 also on release), side buttons 0..5 and the power button
      act on press, and any other id the grid decode accepts is a pad press
      (state > 0) or release. */
  function DecodeEvent(gen: Gen, bid: int, state: int): Action
  {
    if IsTop(gen, bid) then
      var i := TopIdx(gen, bid);
      if state > 0 then [KeyUp, KeyDown, ScaleUp, ScaleDown, HarmsUpHold(true), HarmsDownHold(true), VolDown, VolUp][i]
      else if i == 4 then HarmsUpHold(false)
      else if i == 5 then HarmsDownHold(false)
      else Ignore
    else
      var side := SideIdx(gen, bid);
      if 0 <= side <= 5 && state > 0 then [CycleReverb, CycleDelay, ToggleArp, CycleDrums, OctaveUp, OctaveDown][side]
      else if bid == PowerBtn(gen) && state > 0 then Power
      else
        match GridFromRaw(gen, bid)
        case Some((x, yl)) => if state > 0 then PadOn(bid, x, yl) else PadOff(bid, x, yl)
        case None => Ignore
  }

  /** The pad actions carry the id and the cell it decodes to. */
  ghost predicate WellFormed(gen: Gen, a: Action)
  {
    (a.PadOn? || a.PadOff?) ==> OnGrid(a.x, a.yl) && a.pid == PadId(gen, a.x, a.yl)
  }

  /** Every decoded action is well formed. */
  lemma DecodeEventWellFormed(gen: Gen, bid: int, state: int)
    ensures WellFormed(gen, DecodeEvent(gen, bid, state))
  {
    GridFromRawInverse(gen, bid);
  }

  /** A pad event decodes to a note-on or a note-off of that very pad. */
  lemma DecodePadEvent(gen: Gen, x: int, yl: int, state: int)
    requires OnGrid(x, yl)
    ensures DecodeEvent(gen, PadId(gen, x, yl), state) ==
              if state > 0 then PadOn(PadId(gen, x, yl), x, yl) else PadOff(PadId(gen, x, yl), x, yl)
  {
    PadIdRoundTrip(gen, x, yl);
    SideIdxDecodesSideButtons(gen, 0, x, yl);
    if gen == Mk2 {
      assert PadId(gen, x, yl) != 29;
    } else {
      assert PadId(gen, x, yl) % 16 == x;
    }
  }

  /** Pressing side button `i` selects the `i`-th side action; the seventh side
      button is the power button; a release of a side button does nothing. */
  lemma DecodeSideEvent(gen: Gen, i: int, state: int)
    requires 0 <= i < 7
    ensures state > 0 ==>
              DecodeEvent(gen, SideBtn(gen, i), state) ==
              [CycleReverb, CycleDelay, ToggleArp, CycleDrums, OctaveUp, OctaveDown, Power][i]
    ensures state <= 0 ==> DecodeEvent(gen, SideBtn(gen, i), state) == Ignore
  {
    SideIdxDecodesSideButtons(gen, i, 0, 0);
    ControlsAreNotGrid(gen, i);
    var bid := SideBtn(gen, i);
    if gen == Mk2 {
      assert bid % 10 == 9;
    } else {
      assert bid % 16 == 8;
    }
  }

  /** Pressing top button `i` selects the `i`-th top action; releasing it only
      matters for the two harmonics buttons. */
  lemma DecodeTopEvent(gen: Gen, i: int, state: int)
    requires 0 <= i < 8
    ensures state > 0 ==>
              DecodeEvent(gen, TopBtn(gen, i), state) ==
              [KeyUp, KeyDown, ScaleUp, ScaleDown, HarmsUpHold(true), HarmsDownHold(true), VolDown, VolUp][i]
    ensures state <= 0 ==>
              DecodeEvent(gen, TopBtn(gen, i), state) ==
              if i == 4 then HarmsUpHold(false) else if i == 5 then HarmsDownHold(false) else Ignore
  {
  }

  // ---------------------------------------------------------------- mutators

  /** How an action changes the controllers, `n` being the number of scales:
      key and scale wrap, octave and volume clamp, effect and drum modes cycle
      through four states; every range is kept. */
  function Mutate(c: Controls, a: Action, n: int): (r: Controls)
    requires n > 0
    ensures ControlsOk(c, n) ==> ControlsOk(r, n)
    ensures r.key != c.key ==> a == KeyUp || a == KeyDown
    ensures r.octave != c.octave ==> a == OctaveUp || a == OctaveDown
    ensures a.PadOn? || a.PadOff? || a == Ignore ==> r == c
  {
    match a
    case KeyUp => c.(key := (c.key + 1) % 12)
    case KeyDown => c.(key := (c.key - 1) % 12)
    case ScaleUp => c.(scaleIdx := (c.scaleIdx + 1) % n)
    case ScaleDown => c.(scaleIdx := (c.scaleIdx - 1) % n)
    case HarmsUpHold(b) => c.(harmsUp := b)
    case HarmsDownHold(b) => c.(harmsDown := b)
    case VolDown => c.(volume := if c.volume - 0.05 < 0.0 then 0.0 else c.volume - 0.05)
    case VolUp => c.(volume := if c.volume + 0.05 > 1.0 then 1.0 else c.volume + 0.05)
    case CycleReverb => c.(reverb := (c.reverb + 1) % 4)
    case CycleDelay => c.(delay := (c.delay + 1) % 4)
    case ToggleArp => c.(arp := !c.arp)
    case CycleDrums => c.(drums := (c.drums + 1) % 4)
    case OctaveUp => c.(octave := if c.octave + 1 > OctaveBound then OctaveBound else c.octave + 1)
    case OctaveDown => c.(octave := if c.octave - 1 < -OctaveBound then -OctaveBound else c.octave - 1)
    case Power => c.(running := false)
    case PadOn(_, _, _) => c
    case PadOff(_, _, _) => c
    case Ignore => c
  }

  /** Key up and key down undo each other. */
  lemma KeyUpDownInverse(c: Controls, n: int)
    requires n > 0 && ControlsOk(c, n)
    ensures Mutate(Mutate(c, KeyUp, n), KeyDown, n) == c
    ensures Mutate(Mutate(c, KeyDown, n), KeyUp, n) == c
  {
  }

  /** Scale up and scale down undo each other, whatever the number of scales. */
  lemma ScaleUpDownInverse(c: Controls, n: int)
    requires n > 0 && ControlsOk(c, n)
    ensures Mutate(Mutate(c, ScaleUp, n), ScaleDown, n) == c
    ensures Mutate(Mutate(c, ScaleDown, n), ScaleUp, n) == c
  {
    WrapStepInverse(c.scaleIdx, n);
  }

  /** Four presses of a four-state cycle come back to where they started. */
  lemma ReverbCycleReturns(c: Controls, n: int)
    requires n > 0 && ControlsOk(c, n)
    ensures Mutate(Mutate(Mutate(Mutate(c, CycleReverb, n), CycleReverb, n), CycleReverb, n), CycleReverb, n) == c
  {
  }

  lemma DelayCycleReturns(c: Controls, n: int)
    requires n > 0 && ControlsOk(c, n)
    ensures Mutate(Mutate(Mutate(Mutate(c, CycleDelay, n), CycleDelay, n), CycleDelay, n), CycleDelay, n) == c
  {
  }

  lemma DrumCycleReturns(c: Controls, n: int)
    requires n > 0 && ControlsOk(c, n)
    ensures Mutate(Mutate(Mutate(Mutate(c, CycleDrums, n), CycleDrums, n), CycleDrums, n), CycleDrums, n) == c
    ensures Mutate(Mutate(c, ToggleArp, n), ToggleArp, n) == c
  {
  }

  /** Away from the bounds, octave and volume steps undo each other; at a
      bound a further step in that direction changes nothing. */
  lemma ClampedSteps(c: Controls, n: int)
    requires n > 0 && ControlsOk(c, n)
    ensures c.octave < OctaveBound ==> Mutate(Mutate(c, OctaveUp, n), OctaveDown, n) == c
    ensures c.octave > -OctaveBound ==> Mutate(Mutate(c, OctaveDown, n), OctaveUp, n) == c
    ensures c.octave == OctaveBound ==> Mutate(c, OctaveUp, n) == c
    ensures c.octave == -OctaveBound ==> Mutate(c, OctaveDown, n) == c
    ensures c.volume <= 0.95 ==> Mutate(Mutate(c, VolUp, n), VolDown, n) == c
    ensures c.volume >= 0.05 ==> Mutate(Mutate(c, VolDown, n), VolUp, n) == c
    ensures c.volume == 1.0 ==> Mutate(c, VolUp, n) == c
    ensures c.volume == 0.0 ==> Mutate(c, VolDown, n) == c
  {
  }

  /** The top of each listener pass: a held harmonics-up button adds one
      harmonic (at most 60), then a held harmonics-down button removes one (at
      least 5). */
  function HarmonicsTick(c: Controls): (r: Controls)
    ensures MinHarmonics <= c.harmonics <= MaxHarmonics ==> MinHarmonics <= r.harmonics <= MaxHarmonics
    ensures r == c.(harmonics := r.harmonics)
  {
    var h := if c.harmsUp then (if c.harmonics + 1 > MaxHarmonics then MaxHarmonics else c.harmonics + 1) else c.harmonics;
    var h' := if c.harmsDown then (if h - 1 < MinHarmonics then MinHarmonics else h - 1) else h;
    c.(harmonics := h')
  }

  /** Holding only one harmonics button moves the count one step towards its
      bound each pass and stays at the bound; holding both changes nothing
      strictly inside the range. */
  lemma HarmonicsTickMoves(c: Controls)
    requires MinHarmonics <= c.harmonics <= MaxHarmonics
    ensures c.harmsUp && !c.harmsDown ==>
              HarmonicsTick(c).harmonics == if c.harmonics == MaxHarmonics then MaxHarmonics else c.harmonics + 1
    ensures !c.harmsUp && c.harmsDown ==>
              HarmonicsTick(c).harmonics == if c.harmonics == MinHarmonics then MinHarmonics else c.harmonics - 1
    ensures c.harmsUp && c.harmsDown && c.harmonics < MaxHarmonics ==> HarmonicsTick(c) == c
    ensures !c.harmsUp && !c.harmsDown ==> HarmonicsTick(c) == c
  {
  }

  /** Under the controller ranges every pad pitch is a MIDI note in 0..125. */
  lemma ControlsPitchRange(c: Controls, n: int, x: int, yl: int)
    requires ControlsOk(c, n) && OnGrid(x, yl)
    ensures 0 <= Pitch(c.key, c.octave, x, yl) <= 125
  {
    PitchRange(c.key, c.octave, x, yl);
  }
}
