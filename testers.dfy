/** What the two scan/solo testers share: the panning of a grid position with
    rows counted 1..8 from the top, the element-wise loudest mix of the cells
    held down in manual mode, the side-column index of a raw id, their LED
    write and the volume buttons' colour. */
module Testers {
  import opened Launchpad
  import Pan

  /** `get_quad_gains(x, y)`: column `x` in 0..7 and row `y` in 1..8. */
  function QuadGains(x: int, y: int): seq<real>
  {
    Pan.Bilinear(x as real / 7.0, (y - 1) as real / 7.0)
  }

  /** On the grid the four gains are fractions adding up to one; each corner
      pad sends everything to its own speaker, and every other pad sends less
      than everything to each speaker. */
  lemma QuadGainsSpec(x: int, y: int)
    requires 0 <= x < 8 && 1 <= y <= 8
    ensures |QuadGains(x, y)| == Pan.Channels && Pan.InUnit(QuadGains(x, y))
    ensures QuadGains(x, y)[0] + QuadGains(x, y)[1] + QuadGains(x, y)[2] + QuadGains(x, y)[3] == 1.0
    ensures (x == 0 || x == 7) && (y == 1 || y == 8) ==>
              Pan.OneHot(QuadGains(x, y), (if x == 7 then 1 else 0) + (if y == 8 then 2 else 0))
    ensures 0 < x < 7 || 1 < y < 8 ==> forall i :: 0 <= i < Pan.Channels ==> QuadGains(x, y)[i] < 1.0
  {
    var nx, ny := x as real / 7.0, (y - 1) as real / 7.0;
    Pan.BilinearInUnit(nx, ny);
    if (x == 0 || x == 7) && (y == 1 || y == 8) {
      Pan.BilinearCorner(nx, ny);
    }
    if 0 < x < 7 || 1 < y < 8 {
      Pan.BilinearNoCornerNoOneHot(nx, ny);
    }
  }

  const Silent: seq<real> := [0.0, 0.0, 0.0, 0.0]

  /** Four speaker gains, each a fraction. */
  ghost predicate GainsOk(g: seq<real>)
  {
    |g| == Pan.Channels && Pan.InUnit(g)
  }

  /** The gains of held cell `(mx, my)`: `get_quad_gains(mx, my + 1)`. */
  function HeldGains(c: (int, int)): seq<real>
  {
    QuadGains(c.0, c.1 + 1)
  }

  /** Python's `max(a, b)`. */
  function Max(a: real, b: real): real
  {
    if b > a then b else a
  }

  /** `m` is the loudest-of mix of `cells`: per speaker, the largest gain any
      held cell sends there, and 0 when no cell sends anything. */
  ghost predicate IsMaxMix(cells: set<(int, int)>, m: seq<real>)
  {
    && |m| == Pan.Channels
    && forall i :: 0 <= i < Pan.Channels ==>
         && 0.0 <= m[i]
         && (forall c :: c in cells ==> HeldGains(c)[i] <= m[i])
         && (m[i] == 0.0 || exists c :: c in cells && HeldGains(c)[i] == m[i])
  }

  /** The mix is determined by the held cells alone, whatever order the loop
      visits them in. */
  lemma MaxMixUnique(cells: set<(int, int)>, m: seq<real>, m': seq<real>)
    requires IsMaxMix(cells, m) && IsMaxMix(cells, m')
    ensures m == m'
  {
    forall i | 0 <= i < Pan.Channels
      ensures m[i] == m'[i]
    {
      if m[i] != 0.0 {
        var c :| c in cells && HeldGains(c)[i] == m[i];
        assert m[i] <= m'[i];
      }
      if m'[i] != 0.0 {
        var c :| c in cells && HeldGains(c)[i] == m'[i];
        assert m'[i] <= m[i];
      }
    }
  }

  /** With the held cells on the grid every mixed gain is a fraction; nothing
      held mixes to silence; and a speaker some held cell sends everything to
      (a held corner) gets everything. */
  lemma MaxMixBounds(cells: set<(int, int)>, m: seq<real>)
    requires IsMaxMix(cells, m)
    requires forall c :: c in cells ==> OnGrid(c.0, c.1)
    ensures Pan.InUnit(m)
    ensures cells == {} ==> m == [0.0, 0.0, 0.0, 0.0]
    ensures forall c, k :: c in cells && 0 <= k < Pan.Channels && HeldGains(c)[k] == 1.0 ==> m[k] == 1.0
  {
    forall i | 0 <= i < Pan.Channels
      ensures m[i] <= 1.0
    {
      if m[i] != 0.0 {
        var c :| c in cells && HeldGains(c)[i] == m[i];
        QuadGainsSpec(c.0, c.1 + 1);
      }
    }
  }

  /** One more cell folded into the mix, speaker by speaker. */
  lemma MaxMixStep(done: set<(int, int)>, c: (int, int), m: seq<real>, m': seq<real>)
    requires IsMaxMix(done, m) && |m'| == Pan.Channels && |HeldGains(c)| == Pan.Channels
    requires forall i :: 0 <= i < Pan.Channels ==> m'[i] == Max(m[i], HeldGains(c)[i])
    ensures IsMaxMix(done + {c}, m')
  {
    forall i | 0 <= i < Pan.Channels
      ensures m'[i] == 0.0 || exists d :: d in done + {c} && HeldGains(d)[i] == m'[i]
    {
      if m'[i] == HeldGains(c)[i] {
        assert c in done + {c};
      } else if m[i] != 0.0 {
        var d :| d in done && HeldGains(d)[i] == m[i];
        assert d in done + {c};
      }
    }
  }

  /** The manual-mode loop: start from silence and, for each held cell in
      whatever order the set yields them, raise each speaker's gain to that
      cell's gain if it is larger. */
  method MixHeld(cells: set<(int, int)>) returns (m: seq<real>)
    ensures IsMaxMix(cells, m)
  {
    m := [0.0, 0.0, 0.0, 0.0];
    var rest := cells;
    ghost var done: set<(int, int)> := {};
    while rest != {}
      invariant done + rest == cells && done !! rest
      invariant IsMaxMix(done, m)
      decreases rest
    {
      var c :| c in rest;
      var m' := Raise(m, HeldGains(c));
      MaxMixStep(done, c, m, m');
      m := m';
      rest := rest - {c};
      done := done + {c};
    }
  }

  /** The inner loop over the four speakers: each gain rises to the cell's
      gain when that is larger. */
  method Raise(m: seq<real>, gains: seq<real>) returns (m': seq<real>)
    requires |m| == Pan.Channels && |gains| == Pan.Channels
    ensures |m'| == Pan.Channels
    ensures forall i :: 0 <= i < Pan.Channels ==> m'[i] == Max(m[i], gains[i])
  {
    m' := m;
    for i := 0 to Pan.Channels
      invariant |m'| == Pan.Channels
      invariant forall j :: 0 <= j < i ==> m'[j] == Max(m[j], gains[j])
      invariant forall j :: i <= j < Pan.Channels ==> m'[j] == m[j]
    {
      m' := m'[i := Max(m'[i], gains[i])];
    }
  }

  /** Both testers' main loops compute the mix only in manual mode with some
      cell held; otherwise the speakers get silence. */
  method ManualGains(manual: bool, cells: set<(int, int)>) returns (m: seq<real>)
    ensures IsMaxMix(if manual then cells else {}, m)
  {
    if manual && cells != {} {
      m := MixHeld(cells);
    } else {
      m := [0.0, 0.0, 0.0, 0.0];
    }
  }

  /** The position of raw id `bid` in the side column (`SIDE_BTNS.index`). */
  function SideIndex(gen: Gen, bid: int): (r: Option<int>)
    ensures r.Some? <==> exists i :: 0 <= i < 8 && SideBtn(gen, i) == bid
    ensures r.Some? ==> 0 <= r.value < 8 && SideBtn(gen, r.value) == bid
  {
    match gen
    case Mk1 =>
      var i := (bid - 8) / 16;
      if (bid - 8) % 16 == 0 && 0 <= i < 8 then
        assert SideBtn(gen, i) == bid;
        Some(i)
      else
        assert forall j :: 0 <= j < 8 ==> SideBtn(gen, j) != bid by {
          forall j | 0 <= j < 8
            ensures SideBtn(gen, j) != bid
          {
            assert 16 * j % 16 == 0 && 16 * j / 16 == j;
          }
        }
        None
    case Mk2 =>
      var i := (89 - bid) / 10;
      if (89 - bid) % 10 == 0 && 0 <= i < 8 then
        assert SideBtn(gen, i) == bid;
        Some(i)
      else
        assert forall j :: 0 <= j < 8 ==> SideBtn(gen, j) != bid by {
          forall j | 0 <= j < 8
            ensures SideBtn(gen, j) != bid
          {
            assert 10 * j % 10 == 0 && 10 * j / 10 == j;
          }
        }
        None
  }

  /** The ids of the eight side buttons. */
  function SideIds(gen: Gen): set<int>
  {
    set i | 0 <= i < 8 :: SideBtn(gen, i)
  }

  /** A raw LED write with colour levels 0..3: an Mk2 takes three components
      scaled by 21 (up to 63), an Mk1 takes red and green as they are. */
  function LedRaw(gen: Gen, bid: int, r: int, g: int, b: int): LedWrite
  {
    match gen
    case Mk2 => LedWrite(bid, [r * 21, g * 21, b * 21])
    case Mk1 => LedWrite(bid, [r, g])
  }

  /** `lp_led_grid`: an LED write to grid cell `(x, y)`. */
  function GridLed(gen: Gen, x: int, y: int, r: int, g: int, b: int): LedWrite
  {
    LedRaw(gen, GridId(gen, x, y), r, g, b)
  }

  /** What a raw button event means to a tester's main loop. */
  datatype Key = ExitKey | SideKey(idx: int) | SoloKey(idx: int) | VolKey(up: bool) | GridKey(x: int, y: int) | NoKey

  /** A side toggle fires on a press whose button was last seen released. */
  predicate Rising(state: int, last: int)
  {
    state > 0 && last == 0
  }

  /** Toggles are edge-triggered: once a press has been recorded, further
      presses without a release in between do not fire, and after a release
      the next press fires again. */
  lemma EdgeTriggered(last: map<int, int>, bid: int, s1: int, s2: int)
    requires bid in last
    ensures s1 > 0 ==> !Rising(s2, last[bid := s1][bid])
    ensures Rising(s2, last[bid := 0][bid]) <==> s2 > 0
  {
  }

  /** The volume buttons' colour: green below 0.4, amber below 0.7, red below
      0.9, bright red from there. */
  function VolColour(vol: real): (int, int)
  {
    if vol < 0.4 then (0, 3) else if vol < 0.7 then (3, 3) else if vol < 0.9 then (2, 0) else (3, 0)
  }

  /** `update_vol_leds`: both volume buttons (top row 6 and 7) show it. */
  function VolLeds(gen: Gen, vol: real): seq<LedWrite>
  {
    var (r, g) := VolColour(vol);
    [LedRaw(gen, TopBtn(gen, 6), r, g, 0), LedRaw(gen, TopBtn(gen, 7), r, g, 0)]
  }

  /** The LED colour tracks the volume: a louder setting never shows a
      quieter band, where the bands in order are green, amber, red and bright
      red. */
  lemma VolColourMonotone(v: real, w: real)
    requires v <= w
    ensures VolBand(VolColour(v)) <= VolBand(VolColour(w))
  {
  }

  function VolBand(c: (int, int)): int
  {
    if c == (0, 3) then 0 else if c == (3, 3) then 1 else if c == (2, 0) then 2 else 3
  }
}
