/** The psychoacoustics tester: a pink-noise grid scan, a manual sine mixer,
    Shepard and Risset illusions that sweep the scan cursor, a Doppler and a
    binaural layer, momentary channel solos and a master volume, all driven
    from the Launchpad. */
module Psycho {
  import opened Launchpad
  import opened Testers
  import Pan

  /** The side-column switches: scan, manual, the two Shepard and the two
      Risset directions, and the Doppler and binaural modes (0 is off). */
  datatype Modes = Modes(scan: bool, manual: bool, shepAsc: bool, shepDes: bool,
                         rAcc: bool, rDec: bool, dopp: int, bin: int)

  const Idle := Modes(false, false, false, false, false, false, 0, 0)

  /** The two directions of each illusion are never on together, and the
      cycling modes stay in 0..3. */
  ghost predicate ModesOk(m: Modes)
  {
    && !(m.shepAsc && m.shepDes) && !(m.rAcc && m.rDec)
    && 0 <= m.dopp < 4 && 0 <= m.bin < 4
  }

  /** A press of side button `idx`: 0 and 1 flip scan and manual, 2..5 flip
      their illusion direction and switch the opposite direction off, 6 and 7
      cycle their modes. */
  function Flip(m: Modes, idx: int): (r: Modes)
    ensures ModesOk(m) ==> ModesOk(r)
  {
    Modes(
      if idx == 0 then !m.scan else m.scan,
      if idx == 1 then !m.manual else m.manual,
      if idx == 2 then !m.shepAsc else if idx == 3 then false else m.shepAsc,
      if idx == 3 then !m.shepDes else if idx == 2 then false else m.shepDes,
      if idx == 4 then !m.rAcc else if idx == 5 then false else m.rAcc,
      if idx == 5 then !m.rDec else if idx == 4 then false else m.rDec,
      if idx == 6 then (m.dopp + 1) % 4 else m.dopp,
      if idx == 7 then (m.bin + 1) % 4 else m.bin)
  }

  /** Pressing a direction while the opposite one runs switches over to it. */
  lemma FlipSwitchesOver(m: Modes)
    requires ModesOk(m)
    ensures m.shepDes ==> Flip(m, 2).shepAsc && !Flip(m, 2).shepDes
    ensures m.shepAsc ==> Flip(m, 3).shepDes && !Flip(m, 3).shepAsc
    ensures m.rDec ==> Flip(m, 4).rAcc && !Flip(m, 4).rDec
    ensures m.rAcc ==> Flip(m, 5).rDec && !Flip(m, 5).rAcc
  {
  }

  /** Pressing the same switch twice leaves it as it was, with its opposite
      direction off. */
  lemma FlipTwice(m: Modes, idx: int)
    requires ModesOk(m) && 0 <= idx < 6
    ensures Flip(Flip(m, idx), idx) ==
              if idx == 2 then m.(shepDes := false) else if idx == 3 then m.(shepAsc := false)
              else if idx == 4 then m.(rDec := false) else if idx == 5 then m.(rAcc := false)
              else m
  {
  }

  /** Four presses of a cycling button come back round. */
  lemma FlipCycles(m: Modes, idx: int)
    requires ModesOk(m) && 6 <= idx < 8
    ensures Flip(Flip(Flip(Flip(m, idx), idx), idx), idx) == m
  {
    var m1 := Flip(m, idx);
    var m2 := Flip(m1, idx);
    var m3 := Flip(m2, idx);
    Cycle4(m.dopp);
    Cycle4(m.bin);
  }

  /** Four steps round 0..3 come back. */
  lemma Cycle4(d: int)
    requires 0 <= d < 4
    ensures ((((d + 1) % 4 + 1) % 4 + 1) % 4 + 1) % 4 == d
  {
  }

  /** The parameters the side buttons set on the audio graph: the four gates,
      the two phasor rates, the Doppler depth and the binaural carrier. */
  datatype Engine = Engine(shepGate: int, rissetGate: int, doppGate: int, binGate: int,
                           shepRate: real, rissetRate: real, doppDepth: int, binCarrier: int)

  const InitialEngine := Engine(0, 0, 0, 0, 0.05, 0.04, 0, 220)
  const DoppDepths: seq<int> := [0, 20, 60, 120]
  const BinCarriers: seq<int> := [0, 36, 72, 108]

  function Gate(on: bool): int
  {
    if on then 1 else 0
  }

  /** The engine after side button `idx` turned the modes into `m`. */
  function Rewired(e: Engine, m: Modes, idx: int): Engine
    requires ModesOk(m)
  {
    Engine(
      Gate(m.shepAsc || m.shepDes), Gate(m.rAcc || m.rDec), Gate(m.dopp > 0), Gate(m.bin > 0),
      if idx == 2 then 0.05 else if idx == 3 then -0.05 else e.shepRate,
      if idx == 4 then 0.04 else if idx == 5 then -0.04 else e.rissetRate,
      if idx == 6 then DoppDepths[m.dopp] else e.doppDepth,
      if idx == 7 then BinCarriers[m.bin] else e.binCarrier)
  }

  /** The engine agrees with the switches: each gate is open exactly when
      its layer is on, an ascending illusion runs its phasor forwards and a
      descending one backwards, the Doppler depth is its mode's, and while
      the binaural layer is on the carrier is its mode's. */
  ghost predicate EngineOk(e: Engine, m: Modes)
    requires ModesOk(m)
  {
    && e.shepGate == Gate(m.shepAsc || m.shepDes) && e.rissetGate == Gate(m.rAcc || m.rDec)
    && e.doppGate == Gate(m.dopp > 0) && e.binGate == Gate(m.bin > 0)
    && (m.shepAsc ==> e.shepRate == 0.05) && (m.shepDes ==> e.shepRate == -0.05)
    && (m.rAcc ==> e.rissetRate == 0.04) && (m.rDec ==> e.rissetRate == -0.04)
    && e.doppDepth == DoppDepths[m.dopp]
    && (m.bin > 0 ==> e.binCarrier == BinCarriers[m.bin])
  }

  /** Every side toggle keeps the engine in agreement with the switches. */
  lemma ToggleKeepsEngine(e: Engine, m: Modes, idx: int)
    requires ModesOk(m) && EngineOk(e, m)
    ensures EngineOk(Rewired(e, Flip(m, idx), idx), Flip(m, idx))
  {
  }

  /** The Doppler layer sweeps (non-zero depth) exactly when its gate is open. */
  lemma DopplerDepthMatchesGate(e: Engine, m: Modes)
    requires ModesOk(m) && EngineOk(e, m)
    ensures e.doppDepth != 0 <==> e.doppGate == 1
  {
  }

  /** The main loop's dispatch, in its order: the exit button (top 5, on a
      press), the side column, the solo buttons (top 0..3), the volume
      buttons (top 6 and 7), then the grid. */
  function PsychoKey(gen: Gen, bid: int, state: int): Key
  {
    if bid == TopBtn(gen, 5) && state > 0 then ExitKey
    else if SideIndex(gen, bid).Some? then SideKey(SideIndex(gen, bid).value)
    else if TopBtn(gen, 0) <= bid <= TopBtn(gen, 3) then SoloKey(bid - TopBtn(gen, 0))
    else if bid == TopBtn(gen, 6) || bid == TopBtn(gen, 7) then VolKey(bid == TopBtn(gen, 7))
    else if XYFromRaw(gen, bid).Some? then GridKey(XYFromRaw(gen, bid).value.0, XYFromRaw(gen, bid).value.1)
    else NoKey
  }

  /** Every button decodes to its own key. */
  lemma PsychoKeyDecode(gen: Gen, i: int, x: int, y: int, state: int)
    requires 0 <= i < 8 && OnGrid(x, y)
    ensures PsychoKey(gen, SideBtn(gen, i), state) == SideKey(i)
    ensures i < 4 ==> PsychoKey(gen, TopBtn(gen, i), state) == SoloKey(i)
    ensures PsychoKey(gen, TopBtn(gen, 5), state) == if state > 0 then ExitKey else NoKey
    ensures PsychoKey(gen, TopBtn(gen, 6), state) == VolKey(false)
    ensures PsychoKey(gen, TopBtn(gen, 7), state) == VolKey(true)
    ensures PsychoKey(gen, GridId(gen, x, y), state) == GridKey(x, y)
  {
    ControlsAreNotGrid(gen, 4);
    ControlsAreNotGrid(gen, 5);
    GridIdRoundTrip(gen, x, y);
  }

  /** `max(0.0, min(1.0, v ± 0.05))`. */
  function PsychoVolume(v: real, up: bool): real
  {
    var w := v + (if up then 0.05 else -0.05);
    if w > 1.0 then 1.0 else if w < 0.0 then 0.0 else w
  }

  /** The volume stays in [0,1], moves in the button's direction by one step
      unless it is at the end of the range, and one step up undoes one step
      down (and the other way round) away from the ends. */
  lemma PsychoVolumeSteps(v: real)
    requires 0.0 <= v <= 1.0
    ensures 0.0 <= PsychoVolume(v, true) <= 1.0 && 0.0 <= PsychoVolume(v, false) <= 1.0
    ensures PsychoVolume(v, true) == (if v <= 0.95 then v + 0.05 else 1.0)
    ensures PsychoVolume(v, false) == (if v >= 0.05 then v - 0.05 else 0.0)
    ensures v <= 0.95 ==> PsychoVolume(PsychoVolume(v, true), false) == v
    ensures v >= 0.05 ==> PsychoVolume(PsychoVolume(v, false), true) == v
  {
  }

  /** The cursor is moving when any scanning layer is on. */
  predicate Scanning(m: Modes)
  {
    m.scan || m.shepAsc || m.shepDes || m.rAcc || m.rDec || m.dopp > 0
  }

  /** The ascending Shepard and the accelerating Risset run the cursor
      backwards. */
  predicate Reversed(m: Modes)
  {
    m.shepAsc || m.rAcc
  }

  /** One step of the scan cursor, wrapping modulo 64. */
  function ScanNext(idx: int, rev: bool): (r: int)
    ensures 0 <= r < 64
  {
    if rev then (idx - 1) % 64 else (idx + 1) % 64
  }

  /** A step forwards and a step backwards undo each other; from the idle
      position (-1) the cursor goes forwards to cell 0 and backwards to cell
      62, Python's `(-1 - 1) % 64`. */
  lemma ScanNextRoundTrip(idx: int)
    requires 0 <= idx < 64
    ensures ScanNext(ScanNext(idx, false), true) == idx
    ensures ScanNext(ScanNext(idx, true), false) == idx
    ensures ScanNext(-1, false) == 0 && ScanNext(-1, true) == 62
  {
  }

  /** The cursor cell's colour: red for the Shepard and Doppler layers, green
      for the noise scan, blue for the Risset layer. */
  function ScanColour(m: Modes): (int, int, int)
  {
    (if m.shepAsc || m.shepDes || m.dopp > 0 then 3 else 0, if m.scan then 3 else 0, if m.rAcc || m.rDec then 3 else 0)
  }

  /** Each layer's speaker gains from the last cursor position it saw. */
  datatype LayerGains = LayerGains(scan: seq<real>, shep: seq<real>, risset: seq<real>, dopp: seq<real>)

  ghost predicate LayersOk(l: LayerGains)
  {
    GainsOk(l.scan) && GainsOk(l.shep) && GainsOk(l.risset) && GainsOk(l.dopp)
  }

  /** The layers that are on take the gains of cursor cell `idx`. */
  function Regained(l: LayerGains, m: Modes, idx: int): (r: LayerGains)
    requires 0 <= idx < 64
    ensures LayersOk(l) ==> LayersOk(r)
  {
    var q := QuadGains(idx % 8, idx / 8 + 1);
    QuadGainsSpec(idx % 8, idx / 8 + 1);
    LayerGains(if m.scan then q else l.scan, if m.shepAsc || m.shepDes then q else l.shep,
               if m.rAcc || m.rDec then q else l.risset, if m.dopp > 0 then q else l.dopp)
  }

  /** The LED writes of a cursor step from `prev` to `next`: the previous
      cell goes dark unless it is held, the new one lights up. */
  function ScanLeds(gen: Gen, prev: int, next: int, m: Modes, held: set<(int, int)>): seq<LedWrite>
  {
    var (r, g, b) := ScanColour(m);
    (if prev >= 0 && (prev % 8, prev / 8) !in held then [GridLed(gen, prev % 8, prev / 8, 0, 0, 0)] else [])
    + [GridLed(gen, next % 8, next / 8, r, g, b)]
  }

  /** Side LED `i`'s colour, on or off. */
  function SideColour(i: int, on: bool): (int, int, int)
  {
    if i < 4 then (if on then 3 else 0, if on then 0 else 3, 0)
    else if i == 4 then (0, 0, if on then 3 else 1)
    else if i == 5 then (0, if on then 3 else 1, if on then 3 else 1)
    else if i == 6 then (if on then 3 else 1, 0, 0)
    else (if on then 3 else 1, 0, if on then 3 else 1)
  }

  /** Whether side switch `i` is on. */
  function SideOn(m: Modes, i: int): bool
  {
    if i == 0 then m.scan else if i == 1 then m.manual else if i == 2 then m.shepAsc
    else if i == 3 then m.shepDes else if i == 4 then m.rAcc else if i == 5 then m.rDec
    else if i == 6 then m.dopp > 0 else m.bin > 0
  }

  /** After a toggle all eight side LEDs are redrawn. */
  function SideLeds(gen: Gen, m: Modes): (w: seq<LedWrite>)
    ensures |w| == 8
  {
    seq(8, i requires 0 <= i < 8 =>
      var (r, g, b) := SideColour(i, SideOn(m, i));
      LedRaw(gen, SideBtn(gen, i), r, g, b))
  }

  /** Each side LED shows whether its switch is on; on an Mk1, which has no
      blue, the Risset-accelerando LED is dark either way. */
  lemma SideLedsShowSwitches(gen: Gen, m: Modes, m': Modes, i: int)
    requires 0 <= i < 8 && SideOn(m, i) != SideOn(m', i)
    ensures SideLeds(gen, m)[i].id == SideBtn(gen, i)
    ensures SideLeds(gen, m)[i] != SideLeds(gen, m')[i] <==> gen == Mk2 || i != 4
  {
  }

  /** `lp_led_raw` as written: on an Mk2 it scales and writes, on an Mk1 it
      calls itself again with the same button and colour, forever. The
      interpreter's recursion limit is the `fuel`; `None` is the
      `RecursionError` that ends the program. */
  function LedRawAsWritten(gen: Gen, bid: int, r: int, g: int, b: int, fuel: nat): Option<LedWrite>
    decreases fuel
  {
    match gen
    case Mk2 => Some(LedWrite(bid, [r * 21, g * 21, b * 21]))
    case Mk1 => if fuel == 0 then None else LedRawAsWritten(gen, bid, r, g, 0, fuel - 1)
  }

  /** On an Mk1 no LED write ever reaches the device, whatever the recursion
      limit: the first one (at start-up) ends the program. */
  lemma {:induction false} Mk1LedNeverWritten(bid: int, r: int, g: int, b: int, fuel: nat)
    ensures LedRawAsWritten(Mk1, bid, r, g, b, fuel) == None
    decreases fuel
  {
    if fuel > 0 {
      Mk1LedNeverWritten(bid, r, g, 0, fuel - 1);
    }
  }

  /** The corrected write (`LedRaw`, which the tester uses): an Mk1 gets red
      and green as the other scripts send them, an Mk2 gets exactly what the
      code as written sends, and every write goes to its button. */
  lemma LedRawCorrected(gen: Gen, bid: int, r: int, g: int, b: int, fuel: nat)
    ensures LedRaw(gen, bid, r, g, b).id == bid
    ensures gen == Mk2 ==> LedRawAsWritten(gen, bid, r, g, b, fuel) == Some(LedRaw(gen, bid, r, g, b))
    ensures gen == Mk1 ==> LedRaw(gen, bid, r, g, b).components == [r, g]
  {
  }

  /** The start-up LEDs: solo and side buttons green, the volume colour, and
      the exit button. */
  function StartupLeds(gen: Gen): seq<LedWrite>
  {
    seq(12, i requires 0 <= i < 12 => LedRaw(gen, if i < 4 then TopBtn(gen, i) else SideBtn(gen, i - 4), 0, 3, 0))
    + VolLeds(gen, 0.6)
    + [if gen == Mk2 then LedWrite(TopBtn(gen, 5), [10, 63, 10]) else LedRaw(gen, TopBtn(gen, 5), 1, 3, 0)]
  }

  /** The values the four speaker channels of each source are set to. */
  datatype Outputs = Outputs(noise: seq<real>, shep: seq<real>, risset: seq<real>, dopp: seq<real>, sine: seq<real>)

  ghost predicate OutputsOk(o: Outputs)
  {
    GainsOk(o.noise) && GainsOk(o.shep) && GainsOk(o.risset) && GainsOk(o.dopp) && GainsOk(o.sine)
  }

  /** The audio update: each layer's gains go out while the layer is on and
      silence otherwise; the sine gets full gain on a held solo channel and
      the manual mix elsewhere. */
  method Route(l: LayerGains, m: Modes, manual: seq<real>, solo: seq<bool>) returns (o: Outputs)
    requires LayersOk(l) && GainsOk(manual) && |solo| == Pan.Channels
    ensures OutputsOk(o)
    ensures forall i :: 0 <= i < Pan.Channels ==>
              && o.noise[i] == (if m.scan then l.scan[i] else 0.0)
              && o.shep[i] == (if m.shepAsc || m.shepDes then l.shep[i] else 0.0)
              && o.risset[i] == (if m.rAcc || m.rDec then l.risset[i] else 0.0)
              && o.dopp[i] == (if m.dopp > 0 then l.dopp[i] else 0.0)
              && o.sine[i] == (if solo[i] then 1.0 else manual[i])
  {
    o := Outputs(Silent, Silent, Silent, Silent, Silent);
    for i := 0 to Pan.Channels
      invariant OutputsOk(o)
      invariant forall j :: 0 <= j < i ==>
                  && o.noise[j] == (if m.scan then l.scan[j] else 0.0)
                  && o.shep[j] == (if m.shepAsc || m.shepDes then l.shep[j] else 0.0)
                  && o.risset[j] == (if m.rAcc || m.rDec then l.risset[j] else 0.0)
                  && o.dopp[j] == (if m.dopp > 0 then l.dopp[j] else 0.0)
                  && o.sine[j] == (if solo[j] then 1.0 else manual[j])
    {
      o := Outputs(o.noise[i := if m.scan then l.scan[i] else 0.0],
                   o.shep[i := if m.shepAsc || m.shepDes then l.shep[i] else 0.0],
                   o.risset[i := if m.rAcc || m.rDec then l.risset[i] else 0.0],
                   o.dopp[i := if m.dopp > 0 then l.dopp[i] else 0.0],
                   o.sine[i := if solo[i] then 1.0 else manual[i]]);
    }
  }

  /** 7.83 steps a second. */
  const StepInterval: real := 1.0 / 7.83

  /** The tester's state as a value: the loop flag, the switches and the
      engine they drive, the button memory, the volume, the scan cursor and
      its clock, the layer gains, the outputs and the LED writes so far. */
  datatype Bench = Bench(running: bool, modes: Modes, engine: Engine, lastSide: map<int, int>,
                         pressedTop: set<int>, pressedGrid: set<(int, int)>, volume: real,
                         gridIdx: int, lastStep: real, layers: LayerGains, out: Outputs, log: seq<LedWrite>)

  /** The event part of one loop pass: the exit button ends the loop; a side
      button's rising edge flips its switch, the engine follows and the side
      LEDs are redrawn, and its state is recorded either way; a solo button
      is held red from press to release; a volume press steps the volume and
      recolours both buttons; in manual mode a grid press holds its cell
      (green) and the release of a held cell lets it go (dark). The scan,
      the layers and the outputs are untouched. */
  ghost predicate Handled(gen: Gen, s: Bench, s': Bench, bid: int, state: int)
  {
    var key := PsychoKey(gen, bid, state);
    && ModesOk(s.modes) && (key.SideKey? ==> bid in s.lastSide)
    && var fired := key.SideKey? && Rising(state, s.lastSide[bid]);
       && s'.running == (s.running && key != ExitKey)
       && s'.modes == (if fired then Flip(s.modes, key.idx) else s.modes)
       && s'.engine == (if fired then Rewired(s.engine, Flip(s.modes, key.idx), key.idx) else s.engine)
       && s'.lastSide == (if key.SideKey? then s.lastSide[bid := state] else s.lastSide)
       && s'.pressedTop == (if !key.SoloKey? then s.pressedTop
                            else if state > 0 then s.pressedTop + {bid} else s.pressedTop - {bid})
       && s'.pressedGrid == (if !key.GridKey? || !s.modes.manual then s.pressedGrid
                             else if state > 0 then s.pressedGrid + {(key.x, key.y)}
                             else s.pressedGrid - {(key.x, key.y)})
       && s'.volume == (if key.VolKey? && state > 0 then PsychoVolume(s.volume, key.up) else s.volume)
       && s'.log == s.log + (
            if fired then SideLeds(gen, s'.modes)
            else if key.SoloKey? then [LedRaw(gen, bid, if state > 0 then 3 else 0, if state > 0 then 0 else 3, 0)]
            else if key.VolKey? && state > 0 then VolLeds(gen, s'.volume)
            else if key.GridKey? && s.modes.manual && state > 0 then [GridLed(gen, key.x, key.y, 0, 3, 0)]
            else if key.GridKey? && s.modes.manual && (key.x, key.y) in s.pressedGrid then [GridLed(gen, key.x, key.y, 0, 0, 0)]
            else [])
       && s'.gridIdx == s.gridIdx && s'.lastStep == s.lastStep && s'.layers == s.layers && s'.out == s.out
  }

  /** The scan part of one loop pass: while a scanning layer is on and a step
      interval has passed, the cursor moves one cell (backwards for the
      ascending and accelerating illusions), the clock is stamped, the layers
      that are on take the new cell's gains and the cursor's LEDs move;
      otherwise nothing changes. */
  ghost predicate Scanned(gen: Gen, s: Bench, s': Bench, now: real)
  {
    var idx := ScanNext(s.gridIdx, Reversed(s.modes));
    if Scanning(s.modes) && now - s.lastStep >= StepInterval then
      s' == s.(gridIdx := idx, lastStep := now, layers := Regained(s.layers, s.modes, idx),
               log := s.log + ScanLeds(gen, s.gridIdx, idx, s.modes, s.pressedGrid))
    else s' == s
  }

  /** The audio update at the end of a pass: only the outputs change; each
      layer's gains go out while the layer is on and silence otherwise, and
      the sine gets full gain on a held solo channel and `manual` elsewhere. */
  ghost predicate Published(gen: Gen, s: Bench, s': Bench, manual: seq<real>)
  {
    && LayersOk(s.layers) && GainsOk(manual) && OutputsOk(s'.out)
    && s' == s.(out := s'.out)
    && forall i :: 0 <= i < Pan.Channels ==>
         && s'.out.sine[i] == (if TopBtn(gen, i) in s.pressedTop then 1.0 else manual[i])
         && s'.out.noise[i] == (if s.modes.scan then s.layers.scan[i] else 0.0)
         && s'.out.shep[i] == (if s.modes.shepAsc || s.modes.shepDes then s.layers.shep[i] else 0.0)
         && s'.out.risset[i] == (if s.modes.rAcc || s.modes.rDec then s.layers.risset[i] else 0.0)
         && s'.out.dopp[i] == (if s.modes.dopp > 0 then s.layers.dopp[i] else 0.0)
  }

  class Tester {
    const gen: Gen
    var running: bool
    var modes: Modes
    var engine: Engine
    /** `last_side_states`: the last state seen from each side button. */
    var lastSide: map<int, int>
    var pressedTop: set<int>
    var pressedGrid: set<(int, int)>
    var volume: real
    var gridIdx: int
    var lastStep: real
    var layers: LayerGains
    var out: Outputs
    var ledLog: seq<LedWrite>

    ghost predicate Valid()
      reads this
    {
      && ModesOk(modes) && EngineOk(engine, modes)
      && (forall i :: 0 <= i < 8 ==> SideBtn(gen, i) in lastSide)
      && (forall b :: b in pressedTop ==> TopBtn(gen, 0) <= b <= TopBtn(gen, 3))
      && (forall c :: c in pressedGrid ==> OnGrid(c.0, c.1))
      && 0.0 <= volume <= 1.0
      && -1 <= gridIdx < 64
      && LayersOk(layers) && OutputsOk(out)
    }

    /** The tester's whole state as a value. */
    function State(): Bench
      reads this
    {
      Bench(running, modes, engine, lastSide, pressedTop, pressedGrid, volume, gridIdx, lastStep, layers, out, ledLog)
    }

    /** Start-up: everything off, volume 0.6, the cursor idle, the step clock
        at `now`. */
    constructor(gen: Gen, now: real)
      ensures Valid()
      ensures this.gen == gen && running && modes == Idle && engine == InitialEngine
      ensures lastSide == map i | i in SideIds(gen) :: 0
      ensures pressedTop == {} && pressedGrid == {} && volume == 0.6
      ensures gridIdx == -1 && lastStep == now
      ensures layers == LayerGains(Silent, Silent, Silent, Silent)
      ensures out == Outputs(Silent, Silent, Silent, Silent, Silent)
      ensures ledLog == StartupLeds(gen)
    {
      this.gen := gen;
      running := true;
      modes := Idle;
      engine := InitialEngine;
      lastSide := map i | i in SideIds(gen) :: 0;
      pressedTop := {};
      pressedGrid := {};
      volume := 0.6;
      gridIdx := -1;
      lastStep := now;
      layers := LayerGains(Silent, Silent, Silent, Silent);
      out := Outputs(Silent, Silent, Silent, Silent, Silent);
      ledLog := StartupLeds(gen);
    }

    /** The event part of one loop pass. */
    method HandleEvent(bid: int, state: int)
      requires Valid() && bid >= 0
      modifies this
      ensures Valid()
      ensures Handled(gen, old(State()), State(), bid, state)
    {
      var key := PsychoKey(gen, bid, state);
      match key
      case ExitKey =>
        running := false;
      case SideKey(i) =>
        SidePress(bid, i, state);
      case SoloKey(i) =>
        SoloPress(bid, state);
      case VolKey(up) =>
        VolPress(up, state);
      case GridKey(x, y) =>
        XYFromRawInverse(gen, bid);
        GridPress(x, y, state);
      case NoKey =>
    }

    /** A side-button event: on a rising edge the switch flips, the engine
        follows and the side LEDs are redrawn; the state is recorded either
        way. */
    method SidePress(bid: int, i: int, state: int)
      requires Valid() && 0 <= i < 8 && bid == SideBtn(gen, i)
      modifies this
      ensures Valid()
      ensures var fired := Rising(state, old(lastSide)[bid]);
              && modes == (if fired then Flip(old(modes), i) else old(modes))
              && engine == (if fired then Rewired(old(engine), modes, i) else old(engine))
              && ledLog == old(ledLog) + (if fired then SideLeds(gen, modes) else [])
      ensures lastSide == old(lastSide)[bid := state]
      ensures running == old(running) && pressedTop == old(pressedTop) && pressedGrid == old(pressedGrid)
      ensures volume == old(volume) && gridIdx == old(gridIdx) && lastStep == old(lastStep)
      ensures layers == old(layers) && out == old(out)
    {
      if Rising(state, lastSide[bid]) {
        ToggleKeepsEngine(engine, modes, i);
        modes := Flip(modes, i);
        engine := Rewired(engine, modes, i);
        ledLog := ledLog + SideLeds(gen, modes);
      }
      lastSide := lastSide[bid := state];
    }

    /** A solo button is held from its press to its release, red while held. */
    method SoloPress(bid: int, state: int)
      requires Valid() && TopBtn(gen, 0) <= bid <= TopBtn(gen, 3)
      modifies this
      ensures Valid()
      ensures pressedTop == if state > 0 then old(pressedTop) + {bid} else old(pressedTop) - {bid}
      ensures ledLog == old(ledLog) + [LedRaw(gen, bid, if state > 0 then 3 else 0, if state > 0 then 0 else 3, 0)]
      ensures running == old(running) && modes == old(modes) && engine == old(engine) && lastSide == old(lastSide)
      ensures pressedGrid == old(pressedGrid) && volume == old(volume) && gridIdx == old(gridIdx)
      ensures lastStep == old(lastStep) && layers == old(layers) && out == old(out)
    {
      if state > 0 {
        pressedTop := pressedTop + {bid};
        ledLog := ledLog + [LedRaw(gen, bid, 3, 0, 0)];
      } else {
        pressedTop := pressedTop - {bid};
        ledLog := ledLog + [LedRaw(gen, bid, 0, 3, 0)];
      }
    }

    /** A volume press steps the master volume and recolours both buttons. */
    method VolPress(up: bool, state: int)
      requires Valid()
      modifies this
      ensures Valid()
      ensures volume == if state > 0 then PsychoVolume(old(volume), up) else old(volume)
      ensures ledLog == old(ledLog) + (if state > 0 then VolLeds(gen, volume) else [])
      ensures running == old(running) && modes == old(modes) && engine == old(engine) && lastSide == old(lastSide)
      ensures pressedTop == old(pressedTop) && pressedGrid == old(pressedGrid) && gridIdx == old(gridIdx)
      ensures lastStep == old(lastStep) && layers == old(layers) && out == old(out)
    {
      if state > 0 {
        PsychoVolumeSteps(volume);
        volume := PsychoVolume(volume, up);
        ledLog := ledLog + VolLeds(gen, volume);
      }
    }

    /** In manual mode a grid press holds its cell (green) and a release of
        a held cell lets it go (dark); outside manual mode the grid is
        ignored. */
    method GridPress(x: int, y: int, state: int)
      requires Valid() && OnGrid(x, y)
      modifies this
      ensures Valid()
      ensures pressedGrid == (if !old(modes).manual then old(pressedGrid)
                              else if state > 0 then old(pressedGrid) + {(x, y)}
                              else old(pressedGrid) - {(x, y)})
      ensures ledLog == old(ledLog) + (
                if !modes.manual then []
                else if state > 0 then [GridLed(gen, x, y, 0, 3, 0)]
                else if (x, y) in old(pressedGrid) then [GridLed(gen, x, y, 0, 0, 0)]
                else [])
      ensures running == old(running) && modes == old(modes) && engine == old(engine) && lastSide == old(lastSide)
      ensures pressedTop == old(pressedTop) && volume == old(volume) && gridIdx == old(gridIdx)
      ensures lastStep == old(lastStep) && layers == old(layers) && out == old(out)
    {
      if modes.manual {
        if state > 0 {
          pressedGrid := pressedGrid + {(x, y)};
          ledLog := ledLog + [GridLed(gen, x, y, 0, 3, 0)];
        } else if (x, y) in pressedGrid {
          pressedGrid := pressedGrid - {(x, y)};
          ledLog := ledLog + [GridLed(gen, x, y, 0, 0, 0)];
        }
      }
    }

    /** The scan part of one loop pass: while a scanning layer is on and a
        step interval has passed, the cursor moves one cell (backwards for
        the ascending and accelerating illusions) and the layers that are on
        take the new cell's gains. */
    method ScanStep(now: real)
      requires Valid()
      modifies this`gridIdx, this`layers, this`ledLog, this`lastStep
      ensures Valid()
      ensures Scanned(gen, old(State()), State(), now)
    {
      if Scanning(modes) && now - lastStep >= StepInterval {
        var prev := gridIdx;
        gridIdx := ScanNext(gridIdx, Reversed(modes));
        layers := Regained(layers, modes, gridIdx);
        ledLog := ledLog + ScanLeds(gen, prev, gridIdx, modes, pressedGrid);
        lastStep := now;
      }
    }

    /** One pass of the main loop: the event (if any), the scan, the manual
        mix and the audio update; the exit button ends the loop before the
        rest of the pass. */
    method Tick(ev: Option<(int, int)>, now: real) returns (manual: seq<real>, ghost afterEvent: Bench, ghost afterScan: Bench)
      requires Valid() && running && (ev.Some? ==> ev.value.0 >= 0)
      modifies this
      ensures Valid()
      ensures ev.None? ==> afterEvent == old(State())
      ensures ev.Some? ==> Handled(gen, old(State()), afterEvent, ev.value.0, ev.value.1)
      ensures !afterEvent.running ==> State() == afterEvent
      ensures afterEvent.running ==>
                && Scanned(gen, afterEvent, afterScan, now)
                && IsMaxMix(if afterScan.modes.manual then afterScan.pressedGrid else {}, manual)
                && Published(gen, afterScan, State(), manual)
      ensures running ==> IsMaxMix(if modes.manual then pressedGrid else {}, manual)
      ensures !running ==> ev.Some? && PsychoKey(gen, ev.value.0, ev.value.1) == ExitKey
    {
      manual := Silent;
      if ev.Some? {
        HandleEvent(ev.value.0, ev.value.1);
      }
      afterEvent := State();
      afterScan := afterEvent;
      if !running {
        return;
      }
      ScanStep(now);
      afterScan := State();
      manual := ManualGains(modes.manual, pressedGrid);
      MaxMixBounds(if modes.manual then pressedGrid else {}, manual);
      Publish(manual);
    }

    /** The audio update at the end of a pass. */
    method Publish(manual: seq<real>)
      requires Valid() && GainsOk(manual)
      modifies this
      ensures Valid()
      ensures Published(gen, old(State()), State(), manual)
    {
      var held := pressedTop;
      var solo := seq(Pan.Channels, i requires 0 <= i < Pan.Channels => TopBtn(gen, i) in held);
      out := Route(layers, modes, manual, solo);
    }
  }
}
