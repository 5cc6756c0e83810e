/** The generative field's pure rules: where a cell sits in the four
    quadrants and octave bands, the sound-profile and scale tables, the LED
    colours, the controller state and how raw events decode, and counting
    over snapshots of the 64 agents. */
module FieldCore {
  import opened Launchpad
  import opened Modular
  import Pan

  /** Seconds per 16-beat bar at 120 BPM. */
  const BeatTime: real := 8.0
  const Agents: nat := 64

  // ---------------------------------------------------------------- quadrants

  /** Quadrant id: 0 top-left, 1 top-right, 2 bottom-left, 3 bottom-right. */
  function Qid(x: int, y: int): int
  {
    if x < 4 && y < 4 then 0 else if x >= 4 && y < 4 then 1 else if x < 4 && y >= 4 then 2 else 3
  }

  /** `get_quadrant_info` without its speed: the octave offset (by row band
      and half), whether the cell is in the left ("even") half, and the note
      index within its 4x4 quadrant. */
  function QuadrantInfo(x: int, y: int): (real, bool, int)
  {
    var octv :=
      if y < 3 then (if x < 4 then 1.5 else 0.5)
      else if 3 <= y <= 4 then (if x < 4 then 0.5 else -0.5)
      else (if x < 4 then -1.0 else -1.5);
    (octv, x < 4, x % 4 + (y % 4) * 4)
  }

  /** The classifier's outputs: the quadrant id is left/right plus top/bottom;
      the note index is in 0..15 and determines the cell within its quadrant;
      the octave offset is 1.5/0.5 in rows 0..2, 0.5/-0.5 in rows 3..4 and
      -1.0/-1.5 below, the larger value in the left half. */
  lemma QuadrantInfoSpec(x: int, y: int, x': int, y': int)
    requires OnGrid(x, y) && OnGrid(x', y')
    ensures Qid(x, y) == (if x < 4 then 0 else 1) + (if y < 4 then 0 else 2)
    ensures var (octv, even, note) := QuadrantInfo(x, y);
            && 0 <= note < 16
            && (even <==> x < 4)
            && (y < 3 ==> octv == (if x < 4 then 1.5 else 0.5))
            && (3 <= y <= 4 ==> octv == (if x < 4 then 0.5 else -0.5))
            && (y >= 5 ==> octv == (if x < 4 then -1.0 else -1.5))
    ensures Qid(x, y) == Qid(x', y') && QuadrantInfo(x, y).2 == QuadrantInfo(x', y').2 ==> x == x' && y == y'
  {
    assert x % 4 == (if x < 4 then x else x - 4) && y % 4 == (if y < 4 then y else y - 4);
    assert x' % 4 == (if x' < 4 then x' else x' - 4) && y' % 4 == (if y' < 4 then y' else y' - 4);
  }

  datatype Band = Bell | Mid | Bass

  /** The FM band of an octave offset: bell from +1, bass from -1 down. */
  function BandOf(octv: real): Band
  {
    if octv >= 1.0 then Bell else if octv <= -1.0 then Bass else Mid
  }

  /** Bells live in the top-left three rows, bass in the bottom three rows. */
  lemma BandByPosition(x: int, y: int)
    requires OnGrid(x, y)
    ensures BandOf(QuadrantInfo(x, y).0) == Bell <==> x < 4 && y < 3
    ensures BandOf(QuadrantInfo(x, y).0) == Bass <==> y >= 5
  {
  }

  // ---------------------------------------------------------------- tables

  /** One FM profile: (ratio, index) per band. */
  datatype Profile = Profile(bell: (real, real), mid: (real, real), bass: (real, real))

  const Profiles: seq<Profile> := [
    Profile((3.5, 12.0), (1.0, 1.5), (1.0, 0.8)),     // V7.4 Pulse
    Profile((7.1, 5.0), (2.0, 1.2), (1.0, 0.5)),      // Glass Pluck
    Profile((1.618, 2.0), (1.0, 0.5), (0.5, 1.0)),    // Digital Marimba
    Profile((11.0, 8.0), (4.0, 2.0), (2.0, 1.0)),     // Crystal Tine
    Profile((5.0, 1.5), (2.0, 0.8), (0.5, 2.0)),      // Bamboo FM
    Profile((1.0, 0.2), (1.0, 0.1), (1.0, 0.05)),     // Sine Perc
    Profile((13.5, 10.0), (2.1, 3.0), (1.0, 1.5)),    // Bells in Rain
    Profile((2.12, 4.0), (1.5, 2.5), (0.7, 5.0)),     // Woody FM
    Profile((9.0, 15.0), (3.0, 4.0), (1.0, 2.0))      // Tiny Prisms
  ]

  const Scales: seq<seq<real>> := [
    [0.0, 1.0, 2.0, 3.0, 4.0, 5.0, 6.0, 7.0, 8.0, 9.0, 10.0, 11.0, 12.0, 13.0, 14.0, 15.0],  // Chromatic
    [0.0, 3.86, 7.02, 9.69, 12.0, 14.04, 15.86, 17.51, 19.02, 20.41, 21.69, 22.88, 24.0],  // Harmonic Series
    [0.0, 2.04, 3.86, 4.98, 7.02, 8.84, 10.88, 12.0, 14.04, 15.86, 16.98, 19.02, 20.84, 22.88, 24.0, 26.0],  // Partch Otonality
    [0.0, 1.12, 3.16, 4.98, 7.02, 8.14, 9.96, 12.0, 13.12, 15.16, 16.98, 19.02, 20.14, 21.96, 24.0, 25.12],  // Partch Utonality
    [0.0, 2.0, 4.0, 5.0, 7.0, 9.0, 11.0, 12.0, 14.0, 16.0, 17.0, 19.0, 21.0, 23.0, 24.0, 26.0],  // Major
    [0.0, 2.0, 3.0, 5.0, 7.0, 8.0, 10.0, 12.0, 14.0, 15.0, 17.0, 19.0, 20.0, 22.0, 24.0, 26.0]   // Minor
  ]

  /** The (ratio, index) pair an agent at octave offset `octv` takes from
      profile `p`. */
  function Fm(p: int, octv: real): (real, real)
    requires 0 <= p < |Profiles|
  {
    match BandOf(octv)
    case Bell => Profiles[p].bell
    case Mid => Profiles[p].mid
    case Bass => Profiles[p].bass
  }

  /** The scale degree a note index plays: indices wrap around the scale
      (thirteen degrees in the harmonic series, sixteen in the others). */
  function Degree(s: int, note: int): real
    requires 0 <= s < |Scales| && note >= 0
  {
    assert |Scales[s]| == if s == 1 then 13 else 16;
    if s == 1 then Scales[1][note % 13] else Scales[s][note % 16]
  }

  /** A note index plays the root exactly when it wraps to the first degree:
      every scale starts at 0 and rises strictly from there. */
  lemma DegreeIsRootIff(s: int, note: int)
    requires 0 <= s < |Scales| && note >= 0
    ensures Degree(s, note) == 0.0 <==> note % |Scales[s]| == 0
  {
    assert forall k :: 0 < k < |Scales[s]| ==> Scales[s][k] > 0.0;
  }

  /** What `apply_tuning` sets up: the pitch in semitones above 220 Hz (the
      scale degree plus the root plus twelve per octave of offset) and the FM
      (ratio, index) of the cell's band. */
  datatype Tuning = Tuning(semitones: real, ratio: real, index: real)

  function TuningOf(prof: int, s: int, root: int, x: int, y: int): Tuning
    requires 0 <= prof < |Profiles| && 0 <= s < |Scales| && OnGrid(x, y)
  {
    var (octv, _, note) := QuadrantInfo(x, y);
    var fm := Fm(prof, octv);
    Tuning(Degree(s, note) + root as real + octv * 12.0, fm.0, fm.1)
  }

  /** A tuned agent plays a degree of its scale, transposed by the root and
      its octave offset, with its band's FM pair. */
  lemma TuningSpec(prof: int, s: int, root: int, x: int, y: int)
    requires 0 <= prof < |Profiles| && 0 <= s < |Scales| && OnGrid(x, y)
    ensures var t := TuningOf(prof, s, root, x, y);
            && t.semitones - root as real - 12.0 * QuadrantInfo(x, y).0 in Scales[s]
            && (t.ratio, t.index) == Fm(prof, QuadrantInfo(x, y).0)
  {
  }

  /** The four speaker gains of cell (x, y): the bilinear pan of its position
      scaled to the unit square. */
  function CellGains(x: int, y: int): seq<real>
  {
    Pan.Bilinear(x as real / 7.0, y as real / 7.0)
  }

  /** Every cell's gains are fractions adding up to one, and a corner cell
      plays from its corner speaker alone. */
  lemma CellGainsSpec(x: int, y: int)
    requires OnGrid(x, y)
    ensures |CellGains(x, y)| == 4 && Pan.InUnit(CellGains(x, y))
    ensures CellGains(x, y)[0] + CellGains(x, y)[1] + CellGains(x, y)[2] + CellGains(x, y)[3] == 1.0
    ensures x == 0 && y == 0 ==> Pan.OneHot(CellGains(x, y), 0)
    ensures x == 7 && y == 7 ==> Pan.OneHot(CellGains(x, y), 3)
  {
    Pan.BilinearInUnit(x as real / 7.0, y as real / 7.0);
  }

  /** The divisions an agent may draw when activated by hand: binary ones in
      the left half, odd ones in the right half. */
  function DivChoices(even: bool): seq<int>
  {
    if even then [1, 2, 4] else [1, 3, 5]
  }

  /** Seconds between an agent's triggers: the bar divided by its division,
      slowed or sped by its cell's speed. */
  function Interval(div: int, speed: real): real
    requires div >= 1 && speed > 0.0
  {
    (BeatTime / div as real) / speed
  }

  /** The interval is positive, and `div` intervals at speed one fill a bar. */
  lemma IntervalSpec(div: int, speed: real)
    requires div >= 1 && speed > 0.0
    ensures Interval(div, speed) > 0.0
    ensures Interval(div, speed) * div as real * speed == BeatTime
  {
  }

  /** Agent `i` of the list sits at column `i % 8`, row `i / 8`, and the grid
      press at (x, y) selects agent `y * 8 + x`. */
  lemma CellIndex(x: int, y: int, i: int)
    requires OnGrid(x, y) && 0 <= i < Agents
    ensures 0 <= y * 8 + x < Agents && (y * 8 + x) % 8 == x && (y * 8 + x) / 8 == y
    ensures OnGrid(i % 8, i / 8) && (i / 8) * 8 + i % 8 == i
  {
  }

  // ---------------------------------------------------------------- LED colours

  /** The bright (red, green) colour of each scale. */
  function Bright(gen: Gen, s: int): (int, int)
    requires 0 <= s < |Scales|
  {
    if gen == Mk2 then [(63, 63), (63, 15), (0, 63), (40, 63), (63, 40), (20, 20)][s]
    else [(3, 3), (3, 1), (0, 3), (2, 3), (3, 2), (1, 1)][s]
  }

  function DimLevel(v: int): int
  {
    if v / 6 < 1 then 1 else v / 6
  }

  /** The dim colour: each bright level divided by six, but at least one. */
  function Dim(gen: Gen, s: int): (int, int)
    requires 0 <= s < |Scales|
  {
    var (r, g) := Bright(gen, s);
    (DimLevel(r), DimLevel(g))
  }

  function RootBright(gen: Gen): (int, int)
  {
    if gen == Mk2 then (63, 0) else (3, 0)
  }

  function RootDim(gen: Gen): (int, int)
  {
    if gen == Mk2 then (12, 0) else (1, 0)
  }

  /** `lp_led_grid`: the write for cell (x, y); an Mk2 gets a zero blue level. */
  function GridWrite(gen: Gen, x: int, y: int, c: (int, int)): LedWrite
  {
    LedWrite(GridId(gen, x, y), if gen == Mk2 then [c.0, c.1, 0] else [c.0, c.1])
  }

  predicate Lit(c: (int, int))
  {
    c.0 > 0 || c.1 > 0
  }

  /** The colour an agent shows between triggers (`dim`) or on a trigger:
      the root colours on a root note, else the scale's colours. */
  function AgentColour(gen: Gen, s: int, note: int, bright: bool): (int, int)
    requires 0 <= s < |Scales| && note >= 0
  {
    if Degree(s, note) == 0.0 then (if bright then RootBright(gen) else RootDim(gen))
    else if bright then Bright(gen, s) else Dim(gen, s)
  }

  /** An active agent's pad is always lit, dim or bright, so a dark pad
      (written on deactivation) marks an inactive agent. */
  lemma AgentColourLit(gen: Gen, s: int, note: int, bright: bool)
    requires 0 <= s < |Scales| && note >= 0
    ensures Lit(AgentColour(gen, s, note, bright))
  {
  }

  // ---------------------------------------------------------------- effect tables

  /** Delay times per mode: off, then quarter, eighth and sixteenth notes at
      120 BPM. */
  function DelayTime(mode: int): real
    requires 0 <= mode < 4
  {
    [0.0, 0.5, 0.25, 0.125][mode]
  }

  /** The (delay, mul) pair each delay line gets: mode 0 parks the line at
      1 ms and mutes it. */
  function DelaySetting(mode: int): (real, real)
    requires 0 <= mode < 4
  {
    if DelayTime(mode) > 0.0 then (DelayTime(mode), 0.5) else (0.001, 0.0)
  }

  /** Chorus (depth, feedback) per mode. */
  function ChorusSetting(mode: int): (real, real)
    requires 0 <= mode < 4
  {
    [(0.0, 0.0), (1.0, 0.1), (3.0, 0.3), (5.0, 0.5)][mode]
  }

  /** Reverb (size, damp) per mode. */
  function ReverbSetting(mode: int): (real, real)
    requires 0 <= mode < 3
  {
    [(0.2, 0.1), (0.6, 0.4), (0.95, 0.8)][mode]
  }

  /** Only delay mode 0 is silent, and each later mode halves the delay time;
      chorus and reverb grow with the mode. */
  lemma EffectSettingsOrdered(mode: int)
    requires 0 <= mode < 4
    ensures DelaySetting(mode).1 == 0.0 <==> mode == 0
    ensures 1 <= mode < 3 ==> DelaySetting(mode + 1).0 * 2.0 == DelaySetting(mode).0
    ensures mode < 3 ==> ChorusSetting(mode).0 < ChorusSetting(mode + 1).0
    ensures mode < 2 ==> ReverbSetting(mode).0 < ReverbSetting(mode + 1).0
  {
  }

  // ---------------------------------------------------------------- controls

  /** The field's globals changed by the buttons. `root` is not wrapped. */
  datatype FieldControls = FieldControls(
    profile: int, scale: int, root: int,
    reverb: int, delay: int, chorus: int,
    migration: bool, volume: real)

  const InitialControls: FieldControls := FieldControls(0, 0, 0, 0, 0, 0, false, 0.6)

  ghost predicate FieldControlsOk(c: FieldControls)
  {
    && 0 <= c.profile < |Profiles| && 0 <= c.scale < |Scales|
    && 0 <= c.reverb < 3 && 0 <= c.delay < 4 && 0 <= c.chorus < 4
    && 0.0 <= c.volume <= 1.0
  }

  datatype FieldAction =
    | PowerOff | Panic
    | CycleDelay | CycleChorus | CycleReverb | ToggleMigration
    | NextSound | PrevSound
    | VolDown | VolUp
    | RootDown | RootUp | ScaleDown | ScaleUp
    | Toggle(x: int, y: int)
    | Ignore

  /** The main loop's event dispatch, in its order: power, panic, delay,
      chorus, reverb, migration, sounds, volume, root/scale, and otherwise a
      grid press. Releases do nothing. */
  function DecodeFieldEvent(gen: Gen, bid: int, state: int): FieldAction
  {
    if state <= 0 then Ignore
    else if bid == SideBtn(gen, 6) then PowerOff
    else if bid == SideBtn(gen, 0) then Panic
    else if bid == SideBtn(gen, 1) then CycleDelay
    else if bid == SideBtn(gen, 2) then CycleChorus
    else if bid == TopBtn(gen, 4) then CycleReverb
    else if bid == TopBtn(gen, 5) then ToggleMigration
    else if bid == SideBtn(gen, 4) then NextSound
    else if bid == SideBtn(gen, 5) then PrevSound
    else if bid == TopBtn(gen, 6) then VolDown
    else if bid == TopBtn(gen, 7) then VolUp
    else if bid == TopBtn(gen, 0) then RootDown
    else if bid == TopBtn(gen, 1) then RootUp
    else if bid == TopBtn(gen, 2) then ScaleDown
    else if bid == TopBtn(gen, 3) then ScaleUp
    else
      match XYFromRaw(gen, bid)
      case Some((x, y)) => Toggle(x, y)
      case None => Ignore
  }

  /** A press on a grid cell toggles that cell; every toggle the decoder
      produces from a hardware (non-negative) id names the grid cell whose id
      was pressed. */
  lemma DecodeGridPress(gen: Gen, x: int, y: int, bid: int, state: int)
    requires OnGrid(x, y) && state > 0 && bid >= 0
    ensures DecodeFieldEvent(gen, GridId(gen, x, y), state) == Toggle(x, y)
    ensures DecodeFieldEvent(gen, bid, state).Toggle? ==>
              var t := DecodeFieldEvent(gen, bid, state);
              OnGrid(t.x, t.y) && GridId(gen, t.x, t.y) == bid
  {
    GridIdRoundTrip(gen, x, y);
    forall i | 0 <= i < 8
      ensures GridId(gen, x, y) != SideBtn(gen, i) && GridId(gen, x, y) != TopBtn(gen, i)
    {
      ControlsAreNotGrid(gen, i);
    }
    XYFromRawInverse(gen, bid);
  }

  /** A press on the side column: panic, delay, chorus, next and previous
      sound, power; the unused side buttons 3 and 7 do nothing. */
  lemma DecodeSidePress(gen: Gen, state: int)
    requires state > 0
    ensures DecodeFieldEvent(gen, SideBtn(gen, 0), state) == Panic
    ensures DecodeFieldEvent(gen, SideBtn(gen, 1), state) == CycleDelay
    ensures DecodeFieldEvent(gen, SideBtn(gen, 2), state) == CycleChorus
    ensures DecodeFieldEvent(gen, SideBtn(gen, 3), state) == Ignore
    ensures DecodeFieldEvent(gen, SideBtn(gen, 4), state) == NextSound
    ensures DecodeFieldEvent(gen, SideBtn(gen, 5), state) == PrevSound
    ensures DecodeFieldEvent(gen, SideBtn(gen, 6), state) == PowerOff
    ensures DecodeFieldEvent(gen, SideBtn(gen, 7), state) == Ignore
  {
    ControlsAreNotGrid(gen, 3);
    ControlsAreNotGrid(gen, 7);
  }

  /** A press on the top row: root down and up, scale down and up, reverb,
      migration, volume down and up. */
  lemma DecodeTopPress(gen: Gen, state: int)
    requires state > 0
    ensures DecodeFieldEvent(gen, TopBtn(gen, 0), state) == RootDown
    ensures DecodeFieldEvent(gen, TopBtn(gen, 1), state) == RootUp
    ensures DecodeFieldEvent(gen, TopBtn(gen, 2), state) == ScaleDown
    ensures DecodeFieldEvent(gen, TopBtn(gen, 3), state) == ScaleUp
    ensures DecodeFieldEvent(gen, TopBtn(gen, 4), state) == CycleReverb
    ensures DecodeFieldEvent(gen, TopBtn(gen, 5), state) == ToggleMigration
    ensures DecodeFieldEvent(gen, TopBtn(gen, 6), state) == VolDown
    ensures DecodeFieldEvent(gen, TopBtn(gen, 7), state) == VolUp
  {
  }

  /** How an action changes the controls: reverb cycles through three modes,
      delay and chorus through four, profile and scale wrap, volume clamps to
      [0, 1] in 0.05 steps, and the root note moves without wrapping. */
  function MutateField(c: FieldControls, a: FieldAction): (r: FieldControls)
    ensures FieldControlsOk(c) ==> FieldControlsOk(r)
    ensures a == RootUp ==> r.root == c.root + 1
    ensures a == RootDown ==> r.root == c.root - 1
    ensures a != RootUp && a != RootDown ==> r.root == c.root
  {
    match a
    case CycleDelay => c.(delay := (c.delay + 1) % 4)
    case CycleChorus => c.(chorus := (c.chorus + 1) % 4)
    case CycleReverb => c.(reverb := (c.reverb + 1) % 3)
    case ToggleMigration => c.(migration := !c.migration)
    case NextSound => c.(profile := (c.profile + 1) % |Profiles|)
    case PrevSound => c.(profile := (c.profile - 1) % |Profiles|)
    case VolDown => c.(volume := Clamp01(c.volume - 0.05))
    case VolUp => c.(volume := Clamp01(c.volume + 0.05))
    case RootDown => c.(root := c.root - 1)
    case RootUp => c.(root := c.root + 1)
    case ScaleDown => c.(scale := (c.scale - 1) % |Scales|)
    case ScaleUp => c.(scale := (c.scale + 1) % |Scales|)
    case _ => c
  }

  /** `max(0, min(1, v))`. */
  function Clamp01(v: real): (r: real)
    ensures 0.0 <= r <= 1.0
    ensures 0.0 <= v <= 1.0 ==> r == v
  {
    if v > 1.0 then 1.0 else if v < 0.0 then 0.0 else v
  }

  /** Next and previous sound, and scale up and down, undo each other. */
  lemma FieldStepsInverse(c: FieldControls)
    requires FieldControlsOk(c)
    ensures MutateField(MutateField(c, NextSound), PrevSound) == c
    ensures MutateField(MutateField(c, PrevSound), NextSound) == c
    ensures MutateField(MutateField(c, ScaleUp), ScaleDown) == c
    ensures MutateField(MutateField(c, ScaleDown), ScaleUp) == c
  {
    WrapStepInverse(c.profile, |Profiles|);
    WrapStepInverse(c.scale, |Scales|);
  }

  // ---------------------------------------------------------------- agent snapshots

  /** What the main loop's rules see of an agent. */
  datatype AgentView = AgentView(active: bool, prof: int, scale: int, root: int, div: int)

  /** An active agent whose snapshot differs from the global profile, scale or
      root. */
  predicate Outdated(v: AgentView, c: FieldControls)
  {
    v.active && (v.prof != c.profile || v.scale != c.scale || v.root != c.root)
  }

  /** The three list comprehensions of the main loop: active agents, empty
      cells, and active agents out of date with the controls `c`. */
  datatype Filter = ActiveOnes | EmptyOnes | OutdatedOnes(c: FieldControls)

  predicate Holds(f: Filter, v: AgentView)
  {
    match f
    case ActiveOnes => v.active
    case EmptyOnes => !v.active
    case OutdatedOnes(c) => Outdated(v, c)
  }

  /** The indices, in order, of the agents that `f` keeps. */
  function Select(vs: seq<AgentView>, f: Filter): (r: seq<int>)
    ensures forall i :: i in r <==> 0 <= i < |vs| && Holds(f, vs[i])
    ensures forall k :: 0 <= k < |r| ==> 0 <= r[k] < |vs|
    decreases |vs|
  {
    if |vs| == 0 then []
    else Select(vs[..|vs| - 1], f) + (if Holds(f, vs[|vs| - 1]) then [|vs| - 1] else [])
  }

  /** Changing one agent changes the size of a selection by whether it was
      and is selected. */
  lemma {:induction false} SelectUpdate(vs: seq<AgentView>, f: Filter, i: int, v: AgentView)
    requires 0 <= i < |vs|
    ensures |Select(vs[i := v], f)| == |Select(vs, f)| - (if Holds(f, vs[i]) then 1 else 0) + (if Holds(f, v) then 1 else 0)
    decreases |vs|
  {
    var n := |vs|;
    var ws := vs[i := v];
    SelectLast(vs, f);
    SelectLast(ws, f);
    if i == n - 1 {
      assert ws[..n - 1] == vs[..n - 1];
      assert ws[n - 1] == v;
    } else {
      assert ws[n - 1] == vs[n - 1];
      assert ws[..n - 1] == vs[..n - 1][i := v];
      SelectUpdate(vs[..n - 1], f, i, v);
    }
  }

  /** The size of a selection grows by one exactly when the last agent is kept. */
  lemma SelectLast(vs: seq<AgentView>, f: Filter)
    requires 0 < |vs|
    ensures |Select(vs, f)| == |Select(vs[..|vs| - 1], f)| + (if Holds(f, vs[|vs| - 1]) then 1 else 0)
  {
  }

  /** Every agent is either active or an empty cell. */
  lemma {:induction false} SelectPartition(vs: seq<AgentView>)
    ensures |Select(vs, ActiveOnes)| + |Select(vs, EmptyOnes)| == |vs|
    decreases |vs|
  {
    if |vs| > 0 {
      SelectPartition(vs[..|vs| - 1]);
    }
  }

  function CountActive(vs: seq<AgentView>): nat
  {
    |Select(vs, ActiveOnes)|
  }

  /** The first `n` agents silenced, the others untouched. */
  function Silenced(vs: seq<AgentView>, n: int): (ws: seq<AgentView>)
    ensures |ws| == |vs|
  {
    seq(|vs|, k requires 0 <= k < |vs| => if k < n then vs[k].(active := false) else vs[k])
  }

  lemma SilencedStep(vs: seq<AgentView>, i: int)
    requires 0 <= i < |vs|
    ensures Silenced(vs, i)[i := Silenced(vs, i)[i].(active := false)] == Silenced(vs, i + 1)
  {
  }

  /** A panic reset keeps every agent's assignment and leaves none active. */
  lemma SilencedAll(vs: seq<AgentView>)
    ensures forall k :: 0 <= k < |vs| ==> !Silenced(vs, |vs|)[k].active
    ensures forall k :: 0 <= k < |vs| ==> Silenced(vs, |vs|)[k].(active := vs[k].active) == vs[k]
    ensures CountActive(Silenced(vs, |vs|)) == 0
  {
    NoneActive(Silenced(vs, |vs|));
  }

  /** With every agent quiet, none is counted active. */
  lemma {:induction false} NoneActive(vs: seq<AgentView>)
    requires forall k :: 0 <= k < |vs| ==> !vs[k].active
    ensures CountActive(vs) == 0
    decreases |vs|
  {
    if |vs| > 0 {
      NoneActive(vs[..|vs| - 1]);
    }
  }

  /** Migration as a snapshot change: the source goes quiet, the destination
      wakes with the source's division and the current globals. */
  function Migrated(vs: seq<AgentView>, src: int, dst: int, c: FieldControls): seq<AgentView>
    requires 0 <= src < |vs| && 0 <= dst < |vs|
  {
    vs[src := vs[src].(active := false)][dst := AgentView(true, c.profile, c.scale, c.root, vs[src].div)]
  }

  /** Migration moves an active agent to an empty cell: the number of active
      agents is unchanged and the rhythm moves with it. */
  lemma MigrationKeepsCount(vs: seq<AgentView>, src: int, dst: int, c: FieldControls)
    requires 0 <= src < |vs| && 0 <= dst < |vs|
    requires vs[src].active && !vs[dst].active
    ensures CountActive(Migrated(vs, src, dst, c)) == CountActive(vs)
    ensures Migrated(vs, src, dst, c)[dst].div == vs[src].div
    ensures src != dst && !Migrated(vs, src, dst, c)[src].active && Migrated(vs, src, dst, c)[dst].active
  {
    var ws := vs[src := vs[src].(active := false)];
    SelectUpdate(vs, ActiveOnes, src, vs[src].(active := false));
    SelectUpdate(ws, ActiveOnes, dst, AgentView(true, c.profile, c.scale, c.root, vs[src].div));
  }

  /** Migration's two random choices, `random.choice` of an active agent and
      of an empty cell, each made by a draw: a move exists exactly when some
      agent is active and some cell is empty. */
  function MigrationPick(vs: seq<AgentView>, srcDraw: nat, dstDraw: nat): (r: Option<(int, int)>)
    ensures r.Some? <==> 0 < CountActive(vs) < |vs|
    ensures r.Some? ==> 0 <= r.value.0 < |vs| && 0 <= r.value.1 < |vs|
                        && vs[r.value.0].active && !vs[r.value.1].active
  {
    var act := Select(vs, ActiveOnes);
    var empty := Select(vs, EmptyOnes);
    SelectPartition(vs);
    if |act| > 0 && |empty| > 0 then
      Some((act[srcDraw % |act|], empty[dstDraw % |empty|]))
    else
      None
  }

  /** The staggered transition's `random.choice` among the outdated agents: a
      pick exists exactly when some agent is outdated, and it is one. */
  function TransitionPick(vs: seq<AgentView>, c: FieldControls, draw: nat): (r: Option<int>)
    ensures r.Some? <==> |Select(vs, OutdatedOnes(c))| > 0
    ensures r.Some? ==> 0 <= r.value < |vs| && Outdated(vs[r.value], c)
  {
    var outdated := Select(vs, OutdatedOnes(c));
    if |outdated| > 0 then
      assert outdated[draw % |outdated|] in outdated;
      Some(outdated[draw % |outdated|])
    else
      None
  }

  /** The staggered transition re-syncs one outdated agent to the globals: it
      is no longer outdated, and the number of outdated agents drops by one. */
  lemma TransitionShrinksOutdated(vs: seq<AgentView>, i: int, c: FieldControls)
    requires 0 <= i < |vs| && Outdated(vs[i], c)
    ensures var ws := vs[i := vs[i].(prof := c.profile, scale := c.scale, root := c.root)];
            && !Outdated(ws[i], c)
            && |Select(ws, OutdatedOnes(c))| == |Select(vs, OutdatedOnes(c))| - 1
  {
    SelectUpdate(vs, OutdatedOnes(c), i, vs[i].(prof := c.profile, scale := c.scale, root := c.root));
  }

  /** An agent's clock: when it last fired and how long it waits. */
  datatype Timer = Timer(lastTick: real, interval: real)

  /** `update`: an active agent is due once a full interval has passed since
      it last fired. */
  predicate Due(v: AgentView, t: Timer, now: real)
  {
    v.active && now - t.lastTick >= t.interval
  }

  /** Which of the first `n` agents fire at `now`. */
  function DueList(vs: seq<AgentView>, ts: seq<Timer>, now: real, n: int): (fs: seq<bool>)
    requires 0 <= n <= |vs| == |ts|
    ensures |fs| == n
  {
    seq(n, k requires 0 <= k < n => Due(vs[k], ts[k], now))
  }

  /** The clocks after the first `n` agents have checked theirs: a firing
      agent restarts its interval at `now`. */
  function Ticked(vs: seq<AgentView>, ts: seq<Timer>, now: real, n: int): (us: seq<Timer>)
    requires |vs| == |ts|
    ensures |us| == |ts|
  {
    seq(|ts|, k requires 0 <= k < |ts| =>
      if k < n && Due(vs[k], ts[k], now) then ts[k].(lastTick := now) else ts[k])
  }

  lemma DueStep(vs: seq<AgentView>, ts: seq<Timer>, now: real, i: int)
    requires 0 <= i < |vs| == |ts|
    ensures DueList(vs, ts, now, i) + [Due(vs[i], ts[i], now)] == DueList(vs, ts, now, i + 1)
    ensures Ticked(vs, ts, now, i)[i := if Due(vs[i], ts[i], now) then ts[i].(lastTick := now) else ts[i]]
            == Ticked(vs, ts, now, i + 1)
  {
  }

  /** A pass over the clocks: exactly the due agents fire, they restart at
      `now`, no interval changes, an inactive agent never fires, and with
      positive intervals a second pass at the same instant fires nothing. */
  lemma TickedSpec(vs: seq<AgentView>, ts: seq<Timer>, now: real)
    requires |vs| == |ts|
    requires forall k :: 0 <= k < |ts| ==> ts[k].interval > 0.0
    ensures forall k :: 0 <= k < |ts| ==>
              Ticked(vs, ts, now, |ts|)[k] == (if DueList(vs, ts, now, |ts|)[k] then Timer(now, ts[k].interval) else ts[k])
    ensures forall k :: 0 <= k < |ts| && !vs[k].active ==> !DueList(vs, ts, now, |ts|)[k]
    ensures forall k :: 0 <= k < |ts| ==> !DueList(vs, Ticked(vs, ts, now, |ts|), now, |ts|)[k]
  {
  }
}
