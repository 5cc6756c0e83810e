/** The four-speaker test: side button 0 toggles a pink-noise scan of the grid,
    side button 1 toggles manual mode (held pads mix a sine into the
    speakers), the solo buttons (top 0..3) send the sine at full gain to one
    speaker while held and pause the scan, the volume buttons (top 6 and 7)
    step the master volume, and side button 6 ends the program. */
module Speakers {
  import opened Launchpad
  import opened Testers
  import Pan

  /** The main loop's dispatch, in its order: the power button (side 6, on a
      press), side buttons 0 and 1, the solo buttons, the volume buttons, then
      the grid. */
  function SpeakerKey(gen: Gen, bid: int, state: int): Key
  {
    if bid == SideBtn(gen, 6) && state > 0 then ExitKey
    else if bid == SideBtn(gen, 0) then SideKey(0)
    else if bid == SideBtn(gen, 1) then SideKey(1)
    else if TopBtn(gen, 0) <= bid <= TopBtn(gen, 3) then SoloKey(bid - TopBtn(gen, 0))
    else if bid == TopBtn(gen, 6) || bid == TopBtn(gen, 7) then VolKey(bid == TopBtn(gen, 7))
    else if XYFromRaw(gen, bid).Some? then GridKey(XYFromRaw(gen, bid).value.0, XYFromRaw(gen, bid).value.1)
    else NoKey
  }

  /** Every button decodes to its own key; the other side buttons mean
      nothing, and the power button only ends the program when pressed. */
  lemma SpeakerKeyDecode(gen: Gen, i: int, x: int, y: int, state: int)
    requires 0 <= i < 8 && OnGrid(x, y)
    ensures i < 2 ==> SpeakerKey(gen, SideBtn(gen, i), state) == SideKey(i)
    ensures 2 <= i && i != 6 ==> SpeakerKey(gen, SideBtn(gen, i), state) == NoKey
    ensures SpeakerKey(gen, SideBtn(gen, 6), state) == if state > 0 then ExitKey else NoKey
    ensures i < 4 ==> SpeakerKey(gen, TopBtn(gen, i), state) == SoloKey(i)
    ensures SpeakerKey(gen, TopBtn(gen, 6), state) == VolKey(false)
    ensures SpeakerKey(gen, TopBtn(gen, 7), state) == VolKey(true)
    ensures SpeakerKey(gen, GridId(gen, x, y), state) == GridKey(x, y)
  {
    ControlsAreNotGrid(gen, i);
    ControlsAreNotGrid(gen, 6);
    GridIdRoundTrip(gen, x, y);
  }

  /** Volume down is `max(0, v - 0.05)`, volume up `min(1, v + 0.05)`. */
  function SpeakerVolume(v: real, up: bool): real
  {
    if up then (if v + 0.05 < 1.0 then v + 0.05 else 1.0)
    else (if v - 0.05 > 0.0 then v - 0.05 else 0.0)
  }

  /** The volume stays in [0,1], and one step up undoes one step down (and
      the other way round) away from the ends of the range. */
  lemma SpeakerVolumeSteps(v: real)
    requires 0.0 <= v <= 1.0
    ensures 0.0 <= SpeakerVolume(v, true) <= 1.0 && 0.0 <= SpeakerVolume(v, false) <= 1.0
    ensures SpeakerVolume(v, true) >= v && SpeakerVolume(v, false) <= v
    ensures v <= 0.95 ==> SpeakerVolume(SpeakerVolume(v, true), false) == v
    ensures v >= 0.05 ==> SpeakerVolume(SpeakerVolume(v, false), true) == v
  {
  }

  /** A control LED: red while on (or held), green while off. */
  function StateLed(gen: Gen, bid: int, on: bool): LedWrite
  {
    LedRaw(gen, bid, if on then 3 else 0, if on then 0 else 3, 0)
  }

  /** Sixteen steps a second: the scan takes four seconds a lap. */
  const StepInterval: real := 4.0 / 64.0

  /** The grid cell of scan position `idx`, row by row from the top left. */
  function ScanCell(idx: int): (int, int)
  {
    (idx % 8, idx / 8)
  }

  /** The 64 scan positions are exactly the 64 grid cells. */
  lemma ScanVisitsEveryCell(idx: int, x: int, y: int)
    requires 0 <= idx < 64 && OnGrid(x, y)
    ensures OnGrid(ScanCell(idx).0, ScanCell(idx).1)
    ensures ScanCell(8 * y + x) == (x, y)
    ensures 8 * ScanCell(idx).1 + ScanCell(idx).0 == idx
  {
    assert (8 * y + x) / 8 == y && (8 * y + x) % 8 == x;
  }

  /** The scan's own state: the cursor (-1 before the first step), the time
      of the last step and the noise gains. */
  datatype ScanState = ScanState(idx: int, last: real, gains: seq<real>)

  ghost predicate ScanOk(s: ScanState)
  {
    -1 <= s.idx < 64 && GainsOk(s.gains)
  }

  /** One pass of the scan logic. While scanning and not paused the cursor
      moves to the next cell once a step interval has passed and the noise
      takes that cell's gains; otherwise the noise is silenced and, while
      paused, the step clock follows the time so the scan does not jump on
      resume. */
  function ScanUpdate(s: ScanState, scan: bool, paused: bool, now: real): ScanState
  {
    if scan && !paused then
      if now - s.last >= StepInterval then
        var i := (s.idx + 1) % 64;
        ScanState(i, now, QuadGains(ScanCell(i).0, ScanCell(i).1 + 1))
      else s
    else ScanState(s.idx, if paused then now else s.last, Silent)
  }

  /** The scan keeps its cursor on the grid and its gains fractions; the
      cursor only ever advances by one cell, wrapping after the last, and the
      gains are then those of the cell under it; stopped or paused, the noise
      is silent and the cursor stays put. */
  lemma ScanUpdateSpec(s: ScanState, scan: bool, paused: bool, now: real)
    requires ScanOk(s)
    ensures var r := ScanUpdate(s, scan, paused, now);
            && ScanOk(r)
            && (r.idx == s.idx || (r.idx == (s.idx + 1) % 64 && r.last == now
                                   && r.gains == QuadGains(ScanCell(r.idx).0, ScanCell(r.idx).1 + 1)))
            && (!scan || paused ==> r.idx == s.idx && r.gains == Silent)
            && (paused ==> r.last == now)
  {
    var r := ScanUpdate(s, scan, paused, now);
    if scan && !paused && now - s.last >= StepInterval {
      var i := (s.idx + 1) % 64;
      assert 0 <= i < 64 && r.idx == i;
      assert 0 <= ScanCell(i).0 < 8 && 0 <= ScanCell(i).1 < 8;
      QuadGainsSpec(ScanCell(i).0, ScanCell(i).1 + 1);
      assert r.gains == QuadGains(ScanCell(i).0, ScanCell(i).1 + 1);
    } else {
      assert r.idx == s.idx;
    }
  }

  /** No jump on resume: after a pass spent paused, the scan stays silent and
      its cursor stays put until a whole step interval has passed. */
  lemma ResumeWaits(s: ScanState, now: real, now': real)
    requires now' - now < StepInterval
    ensures var p := ScanUpdate(s, true, true, now);
            ScanUpdate(p, true, false, now') == ScanState(s.idx, now, Silent)
  {
  }

  /** The LEDs of one scan step: the previous cell goes dark unless it is
      held in manual mode, and the new cell lights green. */
  function ScanLeds(gen: Gen, prev: int, next: int, held: set<(int, int)>): seq<LedWrite>
  {
    (if prev >= 0 && ScanCell(prev) !in held then [GridLed(gen, ScanCell(prev).0, ScanCell(prev).1, 0, 0, 0)] else [])
    + [GridLed(gen, ScanCell(next).0, ScanCell(next).1, 0, 3, 0)]
  }

  /** `w` switches off every cell of `cells` once, in some order. */
  ghost predicate IsClearing(gen: Gen, cells: set<(int, int)>, w: seq<LedWrite>)
  {
    && |w| == |cells|
    && (forall c :: c in cells ==> GridLed(gen, c.0, c.1, 0, 0, 0) in w)
    && (forall k :: 0 <= k < |w| ==> exists c :: c in cells && w[k] == GridLed(gen, c.0, c.1, 0, 0, 0))
    && (forall j, k :: 0 <= j < k < |w| ==> w[j].id != w[k].id)
  }

  /** Switching manual mode off darkens every held cell, in whatever order
      the set yields them. */
  method ClearCells(gen: Gen, cells: set<(int, int)>) returns (w: seq<LedWrite>)
    requires forall c :: c in cells ==> OnGrid(c.0, c.1)
    ensures IsClearing(gen, cells, w)
  {
    w := [];
    var rest := cells;
    ghost var done: set<(int, int)> := {};
    ghost var order: seq<(int, int)> := [];
    while rest != {}
      invariant done + rest == cells && done !! rest
      invariant Enumerates(order, done)
      invariant w == Darkened(gen, order)
      decreases rest
    {
      var c :| c in rest;
      EnumeratesSnoc(order, done, c);
      DarkenedSnoc(gen, order, c);
      w := w + [GridLed(gen, c.0, c.1, 0, 0, 0)];
      rest := rest - {c};
      done := done + {c};
      order := order + [c];
    }
    DarkenedClears(gen, order, cells);
  }

  /** `order` lists the cells of `cells`, each once. */
  ghost predicate Enumerates(order: seq<(int, int)>, cells: set<(int, int)>)
  {
    && (forall j, k :: 0 <= j < k < |order| ==> order[j] != order[k])
    && (forall c :: c in cells <==> c in order)
  }

  lemma EnumeratesSnoc(order: seq<(int, int)>, cells: set<(int, int)>, c: (int, int))
    requires Enumerates(order, cells) && c !in cells
    ensures Enumerates(order + [c], cells + {c})
  {
  }

  /** Without its last cell an enumeration lists the other cells. */
  lemma EnumeratesPrefix(order: seq<(int, int)>, cells: set<(int, int)>)
    requires Enumerates(order, cells) && order != []
    ensures Enumerates(order[..|order| - 1], cells - {order[|order| - 1]})
    ensures order[|order| - 1] in cells
  {
    var n := |order|;
    var c := order[n - 1];
    forall d ensures d in cells - {c} <==> d in order[..n - 1] {
      if d in order {
        var k :| 0 <= k < n && order[k] == d;
        assert k < n - 1 <==> d != c;
        if k < n - 1 {
          assert order[..n - 1][k] == d;
        }
      }
    }
  }

  /** The writes darkening the cells of `order`, in that order. */
  ghost function Darkened(gen: Gen, order: seq<(int, int)>): seq<LedWrite>
  {
    seq(|order|, k requires 0 <= k < |order| => GridLed(gen, order[k].0, order[k].1, 0, 0, 0))
  }

  lemma DarkenedSnoc(gen: Gen, order: seq<(int, int)>, c: (int, int))
    ensures Darkened(gen, order + [c]) == Darkened(gen, order) + [GridLed(gen, c.0, c.1, 0, 0, 0)]
  {
  }

  /** Darkening every cell of an enumeration is a clearing of its cells. */
  lemma {:induction false} DarkenedClears(gen: Gen, order: seq<(int, int)>, cells: set<(int, int)>)
    requires Enumerates(order, cells) && forall c :: c in cells ==> OnGrid(c.0, c.1)
    ensures IsClearing(gen, cells, Darkened(gen, order))
    decreases |order|
  {
    if order == [] {
      assert cells == {};
    } else {
      var n := |order|;
      var c := order[n - 1];
      var rest := cells - {c};
      var prefix := order[..n - 1];
      EnumeratesPrefix(order, cells);
      assert rest + {c} == cells;
      assert prefix + [c] == order;
      DarkenedSnoc(gen, prefix, c);
      DarkenedClears(gen, prefix, rest);
      ClearingStep(gen, rest, c, Darkened(gen, prefix));
    }
  }

  /** Darkening one more cell extends a clearing. */
  lemma ClearingStep(gen: Gen, done: set<(int, int)>, c: (int, int), w: seq<LedWrite>)
    requires IsClearing(gen, done, w) && c !in done
    requires OnGrid(c.0, c.1) && forall d :: d in done ==> OnGrid(d.0, d.1)
    ensures IsClearing(gen, done + {c}, w + [GridLed(gen, c.0, c.1, 0, 0, 0)])
  {
    var led := GridLed(gen, c.0, c.1, 0, 0, 0);
    var w' := w + [led];
    forall k | 0 <= k < |w|
      ensures w[k].id != led.id
    {
      var d :| d in done && w[k] == GridLed(gen, d.0, d.1, 0, 0, 0);
      if w[k].id == led.id {
        GridIdInjective(gen, d.0, d.1, c.0, c.1);
      }
    }
    forall k | 0 <= k < |w'|
      ensures exists d :: d in done + {c} && w'[k] == GridLed(gen, d.0, d.1, 0, 0, 0)
    {
      if k < |w| {
        var d :| d in done && w[k] == GridLed(gen, d.0, d.1, 0, 0, 0);
        assert d in done + {c};
      } else {
        assert c in done + {c};
      }
    }
    forall j, k | 0 <= j < k < |w'|
      ensures w'[j].id != w'[k].id
    {
      assert w'[j] == w[j];
      if k == |w| {
        assert w'[k] == led;
      } else {
        assert w'[k] == w[k];
      }
    }
    assert |done + {c}| == |done| + 1;
    forall d | d in done + {c}
      ensures GridLed(gen, d.0, d.1, 0, 0, 0) in w'
    {
      if d != c {
        assert GridLed(gen, d.0, d.1, 0, 0, 0) in w;
      } else {
        assert w'[|w|] == led;
      }
    }
  }

  /** The start-up LEDs: solo, side and exit buttons green, the power button
      blue on an Mk2 (amber-green on an Mk1), then the volume colour. */
  function StartupLeds(gen: Gen): seq<LedWrite>
  {
    [StateLed(gen, TopBtn(gen, 0), false), StateLed(gen, TopBtn(gen, 1), false),
     StateLed(gen, TopBtn(gen, 2), false), StateLed(gen, TopBtn(gen, 3), false),
     StateLed(gen, SideBtn(gen, 0), false), StateLed(gen, SideBtn(gen, 1), false),
     StateLed(gen, TopBtn(gen, 7), false),
     if gen == Mk2 then LedWrite(SideBtn(gen, 6), [10, 10, 63]) else LedRaw(gen, SideBtn(gen, 6), 1, 3, 0)]
    + VolLeds(gen, 0.6)
  }

  /** The audio update: the noise follows the scan, and the sine takes full
      gain on a held solo channel and the manual mix elsewhere. */
  method Route(scanGains: seq<real>, manual: seq<real>, solo: seq<bool>) returns (noise: seq<real>, sine: seq<real>)
    requires GainsOk(scanGains) && GainsOk(manual) && |solo| == Pan.Channels
    ensures GainsOk(noise) && GainsOk(sine)
    ensures noise == scanGains
    ensures forall i :: 0 <= i < Pan.Channels ==> sine[i] == if solo[i] then 1.0 else manual[i]
  {
    noise, sine := Silent, Silent;
    for i := 0 to Pan.Channels
      invariant GainsOk(noise) && GainsOk(sine)
      invariant forall j :: 0 <= j < i ==> noise[j] == scanGains[j]
      invariant forall j :: 0 <= j < i ==> sine[j] == if solo[j] then 1.0 else manual[j]
    {
      noise := noise[i := scanGains[i]];
      sine := sine[i := if solo[i] then 1.0 else manual[i]];
    }
  }

  /** The tester's state as a value: the loop flag, the two modes, the
      button memory, the volume, the scan (cursor, clock and gains), the two
      outputs and the LED writes so far. */
  datatype Bench = Bench(running: bool, scan: bool, manual: bool, lastSide: map<int, int>,
                         pressedTop: set<int>, pressedGrid: set<(int, int)>, volume: real,
                         sc: ScanState, noise: seq<real>, sine: seq<real>, log: seq<LedWrite>)

  /** The event part of one loop pass: the power button ends the loop; a
      side button's rising edge flips the scan (stopping it darkens the
      cursor's cell and parks the cursor) or manual mode (leaving it darkens
      and releases every held cell, logged as `cleared`), and its state is
      recorded either way; a solo button is held red from press to release;
      a volume press steps the volume and recolours both buttons; in manual
      mode a grid press holds its cell (green) and the release of a held cell
      lets it go (dark). The scan clock, its gains and the outputs are
      untouched. */
  ghost predicate Handled(gen: Gen, s: Bench, s': Bench, bid: int, state: int, cleared: seq<LedWrite>)
  {
    var key := SpeakerKey(gen, bid, state);
    && (key.SideKey? ==> bid in s.lastSide)
    && var fired := key.SideKey? && Rising(state, s.lastSide[bid]);
       && s'.running == (s.running && key != ExitKey)
       && s'.scan == (if fired && key.idx == 0 then !s.scan else s.scan)
       && s'.manual == (if fired && key.idx == 1 then !s.manual else s.manual)
       && s'.lastSide == (if key.SideKey? then s.lastSide[bid := state] else s.lastSide)
       && s'.pressedTop == (if !key.SoloKey? then s.pressedTop
                            else if state > 0 then s.pressedTop + {bid} else s.pressedTop - {bid})
       && s'.pressedGrid == (if fired && key.idx == 1 && !s'.manual then {}
                             else if !key.GridKey? || !s.manual then s.pressedGrid
                             else if state > 0 then s.pressedGrid + {(key.x, key.y)}
                             else s.pressedGrid - {(key.x, key.y)})
       && s'.sc == s.sc.(idx := if fired && key.idx == 0 && !s'.scan then -1 else s.sc.idx)
       && s'.volume == (if key.VolKey? && state > 0 then SpeakerVolume(s.volume, key.up) else s.volume)
       && (if fired && key.idx == 1 && !s'.manual then IsClearing(gen, s.pressedGrid, cleared) else cleared == [])
       && s'.log == s.log + (
            if fired && key.idx == 1 then [StateLed(gen, bid, s'.manual)] + cleared
            else if fired then [StateLed(gen, bid, s'.scan)]
                 + (if !s'.scan && s.sc.idx >= 0 then [GridLed(gen, ScanCell(s.sc.idx).0, ScanCell(s.sc.idx).1, 0, 0, 0)] else [])
            else if key.SoloKey? then [StateLed(gen, bid, state > 0)]
            else if key.VolKey? && state > 0 then VolLeds(gen, s'.volume)
            else if key.GridKey? && s.manual && state > 0 then [GridLed(gen, key.x, key.y, 0, 3, 0)]
            else if key.GridKey? && s.manual && (key.x, key.y) in s.pressedGrid then [GridLed(gen, key.x, key.y, 0, 0, 0)]
            else [])
       && s'.noise == s.noise && s'.sine == s.sine
  }

  /** The scan part of one loop pass: the scan state takes its update (a held
      solo button pauses it) and, when the cursor moved, its LEDs move;
      nothing else changes. */
  ghost predicate Scanned(gen: Gen, s: Bench, s': Bench, now: real)
  {
    var r := ScanUpdate(s.sc, s.scan, |s.pressedTop| > 0, now);
    s' == s.(sc := r, log := s.log + (if r.idx != s.sc.idx then ScanLeds(gen, s.sc.idx, r.idx, s.pressedGrid) else []))
  }

  /** The audio update at the end of a pass: only the outputs change; the
      noise takes the scan's gains and the sine gets full gain on a held solo
      channel and `mix` elsewhere. */
  ghost predicate Published(gen: Gen, s: Bench, s': Bench, mix: seq<real>)
  {
    && GainsOk(mix) && GainsOk(s'.sine)
    && s' == s.(noise := s.sc.gains, sine := s'.sine)
    && forall i :: 0 <= i < Pan.Channels ==>
         s'.sine[i] == if TopBtn(gen, i) in s.pressedTop then 1.0 else mix[i]
  }

  class Tester {
    const gen: Gen
    var running: bool
    var scan: bool
    var manual: bool
    /** `last_side_states`: the last state seen from side buttons 0 and 1. */
    var lastSide: map<int, int>
    var pressedTop: set<int>
    var pressedGrid: set<(int, int)>
    var volume: real
    var gridIdx: int
    var lastStep: real
    var scanGains: seq<real>
    var noise: seq<real>
    var sine: seq<real>
    var ledLog: seq<LedWrite>

    /** Besides the ranges, cells are only held in manual mode and the cursor
        is only on the grid while scanning. */
    ghost predicate Valid()
      reads this
    {
      && SideBtn(gen, 0) in lastSide && SideBtn(gen, 1) in lastSide
      && (forall b :: b in pressedTop ==> TopBtn(gen, 0) <= b <= TopBtn(gen, 3))
      && (forall c :: c in pressedGrid ==> OnGrid(c.0, c.1))
      && (manual || pressedGrid == {})
      && (scan || gridIdx == -1)
      && 0.0 <= volume <= 1.0
      && ScanOk(Scan())
      && GainsOk(noise) && GainsOk(sine)
    }

    function Scan(): ScanState
      reads this
    {
      ScanState(gridIdx, lastStep, scanGains)
    }

    /** The tester's whole state as a value. */
    function State(): Bench
      reads this
    {
      Bench(running, scan, manual, lastSide, pressedTop, pressedGrid, volume, Scan(), noise, sine, ledLog)
    }

    /** Start-up: both modes off, volume 0.6, the cursor idle, and the step
        clock one interval back so the first step is due at once. */
    constructor(gen: Gen, now: real)
      ensures Valid()
      ensures this.gen == gen && running && !scan && !manual
      ensures lastSide == map[SideBtn(gen, 0) := 0, SideBtn(gen, 1) := 0]
      ensures pressedTop == {} && pressedGrid == {} && volume == 0.6
      ensures gridIdx == -1 && lastStep == now - StepInterval
      ensures scanGains == Silent && noise == Silent && sine == Silent
      ensures ledLog == StartupLeds(gen)
    {
      this.gen := gen;
      running := true;
      scan := false;
      manual := false;
      lastSide := map[SideBtn(gen, 0) := 0, SideBtn(gen, 1) := 0];
      pressedTop := {};
      pressedGrid := {};
      volume := 0.6;
      gridIdx := -1;
      lastStep := now - StepInterval;
      scanGains := Silent;
      noise := Silent;
      sine := Silent;
      ledLog := StartupLeds(gen);
    }

    /** The event part of one loop pass. Turning manual mode off logs the
        side LED and then `cleared`, a clearing of the held cells. */
    method HandleEvent(bid: int, state: int) returns (cleared: seq<LedWrite>)
      requires Valid() && bid >= 0
      modifies this
      ensures Valid()
      ensures Handled(gen, old(State()), State(), bid, state, cleared)
    {
      cleared := [];
      var key := SpeakerKey(gen, bid, state);
      match key
      case ExitKey =>
        running := false;
      case SideKey(i) =>
        cleared := SidePress(bid, i, state);
      case SoloKey(i) =>
        SoloPress(bid, state);
      case VolKey(up) =>
        VolPress(up, state);
      case GridKey(x, y) =>
        XYFromRawInverse(gen, bid);
        GridPress(x, y, state);
      case NoKey =>
    }

    /** A side-button event: on a rising edge its mode flips; the state is
        recorded either way. */
    method SidePress(bid: int, i: int, state: int) returns (cleared: seq<LedWrite>)
      requires Valid() && 0 <= i < 2 && bid == SideBtn(gen, i)
      modifies this
      ensures Valid()
      ensures var fired := Rising(state, old(lastSide)[bid]);
              && scan == (if fired && i == 0 then !old(scan) else old(scan))
              && manual == (if fired && i == 1 then !old(manual) else old(manual))
              && pressedGrid == (if fired && i == 1 && !manual then {} else old(pressedGrid))
              && gridIdx == (if fired && i == 0 && !scan then -1 else old(gridIdx))
      ensures var fired := Rising(state, old(lastSide)[bid]);
              && (if fired && i == 1 && !manual then IsClearing(gen, old(pressedGrid), cleared) else cleared == [])
              && ledLog == old(ledLog) + (
                  if fired && i == 1 then [StateLed(gen, bid, manual)] + cleared
                  else if fired then [StateLed(gen, bid, scan)]
                       + (if !scan && old(gridIdx) >= 0 then [GridLed(gen, ScanCell(old(gridIdx)).0, ScanCell(old(gridIdx)).1, 0, 0, 0)] else [])
                  else [])
      ensures lastSide == old(lastSide)[bid := state]
      ensures running == old(running) && pressedTop == old(pressedTop) && volume == old(volume)
      ensures lastStep == old(lastStep) && scanGains == old(scanGains) && noise == old(noise) && sine == old(sine)
    {
      cleared := [];
      if Rising(state, lastSide[bid]) {
        if i == 0 {
          ScanToggle(bid);
        } else {
          cleared := ManualToggle(bid);
        }
      }
      lastSide := lastSide[bid := state];
    }

    /** Side 0 flips the scan; stopping it darkens the cursor's cell and
        parks the cursor. */
    method ScanToggle(bid: int)
      requires Valid()
      modifies this
      ensures Valid()
      ensures scan == !old(scan)
      ensures gridIdx == if scan then old(gridIdx) else -1
      ensures ledLog == old(ledLog) + [StateLed(gen, bid, scan)]
                + (if !scan && old(gridIdx) >= 0 then [GridLed(gen, ScanCell(old(gridIdx)).0, ScanCell(old(gridIdx)).1, 0, 0, 0)] else [])
      ensures running == old(running) && manual == old(manual) && lastSide == old(lastSide)
      ensures pressedTop == old(pressedTop) && pressedGrid == old(pressedGrid) && volume == old(volume)
      ensures lastStep == old(lastStep) && scanGains == old(scanGains) && noise == old(noise) && sine == old(sine)
    {
      scan := !scan;
      ledLog := ledLog + [StateLed(gen, bid, scan)];
      if !scan && gridIdx >= 0 {
        ledLog := ledLog + [GridLed(gen, ScanCell(gridIdx).0, ScanCell(gridIdx).1, 0, 0, 0)];
        gridIdx := -1;
      }
    }

    /** Side 1 flips manual mode; leaving it darkens and releases every held
        cell. */
    method ManualToggle(bid: int) returns (cleared: seq<LedWrite>)
      requires Valid()
      modifies this
      ensures Valid()
      ensures manual == !old(manual)
      ensures pressedGrid == if manual then old(pressedGrid) else {}
      ensures if manual then cleared == [] else IsClearing(gen, old(pressedGrid), cleared)
      ensures ledLog == old(ledLog) + [StateLed(gen, bid, manual)] + cleared
      ensures running == old(running) && scan == old(scan) && lastSide == old(lastSide) && gridIdx == old(gridIdx)
      ensures pressedTop == old(pressedTop) && volume == old(volume)
      ensures lastStep == old(lastStep) && scanGains == old(scanGains) && noise == old(noise) && sine == old(sine)
    {
      manual := !manual;
      cleared := [];
      if !manual {
        cleared := ClearCells(gen, pressedGrid);
        pressedGrid := {};
      }
      ledLog := ledLog + [StateLed(gen, bid, manual)] + cleared;
    }

    /** A solo button is held from its press to its release, red while held. */
    method SoloPress(bid: int, state: int)
      requires Valid() && TopBtn(gen, 0) <= bid <= TopBtn(gen, 3)
      modifies this
      ensures Valid()
      ensures pressedTop == if state > 0 then old(pressedTop) + {bid} else old(pressedTop) - {bid}
      ensures ledLog == old(ledLog) + [StateLed(gen, bid, state > 0)]
      ensures running == old(running) && scan == old(scan) && manual == old(manual) && lastSide == old(lastSide)
      ensures pressedGrid == old(pressedGrid) && volume == old(volume) && gridIdx == old(gridIdx)
      ensures lastStep == old(lastStep) && scanGains == old(scanGains) && noise == old(noise) && sine == old(sine)
    {
      if state > 0 {
        pressedTop := pressedTop + {bid};
      } else {
        pressedTop := pressedTop - {bid};
      }
      ledLog := ledLog + [StateLed(gen, bid, state > 0)];
    }

    /** A volume press steps the master volume and recolours both buttons. */
    method VolPress(up: bool, state: int)
      requires Valid()
      modifies this
      ensures Valid()
      ensures volume == if state > 0 then SpeakerVolume(old(volume), up) else old(volume)
      ensures ledLog == old(ledLog) + (if state > 0 then VolLeds(gen, volume) else [])
      ensures running == old(running) && scan == old(scan) && manual == old(manual) && lastSide == old(lastSide)
      ensures pressedTop == old(pressedTop) && pressedGrid == old(pressedGrid) && gridIdx == old(gridIdx)
      ensures lastStep == old(lastStep) && scanGains == old(scanGains) && noise == old(noise) && sine == old(sine)
    {
      if state > 0 {
        SpeakerVolumeSteps(volume);
        volume := SpeakerVolume(volume, up);
        ledLog := ledLog + VolLeds(gen, volume);
      }
    }

    /** In manual mode a grid press holds its cell (green) and a release of
        a held cell lets it go (dark); outside manual mode the grid is
        ignored. */
    method GridPress(x: int, y: int, state: int)
      requires Valid() && OnGrid(x, y)
      modifies this
      ensures Valid()
      ensures pressedGrid == (if !manual then old(pressedGrid)
                              else if state > 0 then old(pressedGrid) + {(x, y)}
                              else old(pressedGrid) - {(x, y)})
      ensures ledLog == old(ledLog) + (
                if !manual then []
                else if state > 0 then [GridLed(gen, x, y, 0, 3, 0)]
                else if (x, y) in old(pressedGrid) then [GridLed(gen, x, y, 0, 0, 0)]
                else [])
      ensures running == old(running) && scan == old(scan) && manual == old(manual) && lastSide == old(lastSide)
      ensures pressedTop == old(pressedTop) && volume == old(volume) && gridIdx == old(gridIdx)
      ensures lastStep == old(lastStep) && scanGains == old(scanGains) && noise == old(noise) && sine == old(sine)
    {
      if manual {
        if state > 0 {
          pressedGrid := pressedGrid + {(x, y)};
          ledLog := ledLog + [GridLed(gen, x, y, 0, 3, 0)];
        } else if (x, y) in pressedGrid {
          pressedGrid := pressedGrid - {(x, y)};
          ledLog := ledLog + [GridLed(gen, x, y, 0, 0, 0)];
        }
      }
    }

    /** The scan part of one loop pass; a held solo button pauses the scan. */
    method ScanStep(now: real)
      requires Valid()
      modifies this
      ensures Valid()
      ensures Scanned(gen, old(State()), State(), now)
    {
      var s := Scan();
      var r := ScanUpdate(s, scan, |pressedTop| > 0, now);
      ScanUpdateSpec(s, scan, |pressedTop| > 0, now);
      assert ScanOk(r) && (scan || r.idx == -1);
      var w := if r.idx != s.idx then ScanLeds(gen, s.idx, r.idx, pressedGrid) else [];
      gridIdx, lastStep, scanGains, ledLog := r.idx, r.last, r.gains, ledLog + w;
    }

    /** One pass of the main loop: the event (if any), the scan, the manual
        mix and the audio update; the power button ends the loop before the
        rest of the pass. */
    method Tick(ev: Option<(int, int)>, now: real)
      returns (mix: seq<real>, cleared: seq<LedWrite>, ghost afterEvent: Bench, ghost afterScan: Bench)
      requires Valid() && running && (ev.Some? ==> ev.value.0 >= 0)
      modifies this
      ensures Valid()
      ensures ev.None? ==> afterEvent == old(State()) && cleared == []
      ensures ev.Some? ==> Handled(gen, old(State()), afterEvent, ev.value.0, ev.value.1, cleared)
      ensures !afterEvent.running ==> State() == afterEvent
      ensures afterEvent.running ==>
                && Scanned(gen, afterEvent, afterScan, now)
                && IsMaxMix(afterScan.pressedGrid, mix)
                && Published(gen, afterScan, State(), mix)
      ensures running ==> IsMaxMix(pressedGrid, mix)
      ensures !running ==> ev.Some? && SpeakerKey(gen, ev.value.0, ev.value.1) == ExitKey
    {
      mix := Silent;
      cleared := [];
      if ev.Some? {
        cleared := HandleEvent(ev.value.0, ev.value.1);
      }
      afterEvent := State();
      afterScan := afterEvent;
      if !running {
        return;
      }
      ScanStep(now);
      afterScan := State();
      mix := ManualGains(manual, pressedGrid);
      MaxMixBounds(if manual then pressedGrid else {}, mix);
      Publish(mix);
    }

    /** The audio update at the end of a pass. */
    method Publish(mix: seq<real>)
      requires Valid() && GainsOk(mix)
      modifies this
      ensures Valid()
      ensures Published(gen, old(State()), State(), mix)
    {
      var held := pressedTop;
      var solo := seq(Pan.Channels, i requires 0 <= i < Pan.Channels => TopBtn(gen, i) in held);
      noise, sine := Route(scanGains, mix, solo);
    }
  }
}
