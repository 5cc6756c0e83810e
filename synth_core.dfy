/** The pure control logic of the harmonic grid synth: the scale table, the grid
    pitch map, the nearest-degree quantiser, the pad LED colour, the pad-id
    layouts of both Launchpad generations and the random microtonal scale.

    Rows are "logical": `yl == 0` is the BOTTOM row of the grid. */
module SynthCore {
  import opened Launchpad
  import Pan

  const MaxVoices: nat := 16
  const OctaveBound: int := 3
  const MinHarmonics: int := 5
  const MaxHarmonics: int := 60

  /** The 26 fixed scales, in the order they are declared (degrees in semitones
      above the key, some microtonal). The random scale is appended after them. */
  const FixedScales: seq<seq<real>> := [
    [0.0, 2.0, 4.0, 5.0, 7.0, 9.0, 11.0],                  // Major
    [0.0, 2.0, 3.0, 5.0, 7.0, 8.0, 10.0],                  // Minor
    [0.0, 1.12, 3.86, 4.98, 7.02, 8.14, 10.88],            // Indian Bhairav
    [0.0, 1.12, 3.86, 5.90, 7.02, 9.06, 10.88],            // Indian Marwa
    [0.0, 2.04, 3.86, 7.02, 9.06],                         // Chinese Pentatonic
    [0.0, 0.5, 2.5, 3.5, 6.5, 7.5, 10.5],                  // Ligeti Micro
    [0.0, 2.04, 3.86, 5.51, 7.02, 8.41, 9.69, 10.88],      // Spectral
    [0.0, 2.04, 3.86, 4.98, 7.02, 8.84, 10.88],            // Partch Otonality
    [0.0, 2.04, 3.16, 7.02, 8.14],                         // Japanese Hirajoshi
    [0.0, 1.12, 4.98, 7.02, 8.14],                         // Japanese In Sen
    [0.0, 2.0, 3.0, 5.0, 7.0, 9.0, 10.0],                  // Dorian
    [0.0, 1.0, 3.0, 5.0, 7.0, 8.0, 10.0],                  // Phrygian
    [0.0, 2.0, 4.0, 6.0, 7.0, 9.0, 11.0],                  // Lydian
    [0.0, 2.0, 4.0, 5.0, 7.0, 9.0, 10.0],                  // Mixolydian
    [0.0, 1.0, 3.0, 5.0, 6.0, 8.0, 10.0],                  // Locrian
    [0.0, 2.0, 3.0, 5.0, 7.0, 8.0, 11.0],                  // Harmonic Minor
    [0.0, 2.0, 3.0, 5.0, 7.0, 9.0, 11.0],                  // Melodic Minor
    [0.0, 2.0, 4.0, 7.0, 9.0],                             // Pentatonic Maj
    [0.0, 3.0, 5.0, 7.0, 10.0],                            // Pentatonic Min
    [0.0, 3.0, 5.0, 6.0, 7.0, 10.0],                       // Blues
    [0.0, 2.0, 4.0, 6.0, 8.0, 10.0],                       // Whole Tone
    [0.0, 2.0, 4.0, 6.0, 7.0, 9.0, 10.0],                  // Acoustic
    [0.0, 1.0, 3.0, 4.0, 6.0, 8.0, 10.0],                  // Altered
    [0.0, 1.0, 4.0, 5.0, 7.0, 8.0, 10.0],                  // Phrygian Dom
    [0.0, 2.0, 3.0, 6.0, 7.0, 8.0, 11.0],                  // Hungarian Min
    [0.0, 1.0, 4.0, 5.0, 7.0, 8.0, 11.0]                   // Double Harm
  ]

  /** Every fixed scale starts at the root and has at least five degrees. */
  lemma FixedScalesStartAtRoot()
    ensures |FixedScales| == 26
    ensures forall i :: 0 <= i < |FixedScales| ==> |FixedScales[i]| >= 5 && FixedScales[i][0] == 0.0
  {
  }

  // ---------------------------------------------------------------- panning

  /** Gains of a logical pad: `nx = x/7`, `ny = (7 - yl)/7` (bottom row is ny = 1). */
  function QuadGains(x: int, yl: int): seq<real>
  {
    Pan.Bilinear(x as real / 7.0, (7 - yl) as real / 7.0)
  }

  /** On the grid the four gains are proper fractions adding up to one. */
  lemma QuadGainsPartition(x: int, yl: int)
    requires OnGrid(x, yl)
    ensures |QuadGains(x, yl)| == 4 && Pan.InUnit(QuadGains(x, yl))
    ensures QuadGains(x, yl)[0] + QuadGains(x, yl)[1] + QuadGains(x, yl)[2] + QuadGains(x, yl)[3] == 1.0
  {
    Pan.BilinearInUnit(x as real / 7.0, (7 - yl) as real / 7.0);
  }

  /** At the four corner pads exactly one channel is fully on: bottom-left pad
      feeds channel 2, bottom-right 3, top-left 0 and top-right 1. */
  lemma QuadGainsCorners()
    ensures Pan.OneHot(QuadGains(0, 0), 2)
    ensures Pan.OneHot(QuadGains(7, 0), 3)
    ensures Pan.OneHot(QuadGains(0, 7), 0)
    ensures Pan.OneHot(QuadGains(7, 7), 1)
  {
    Pan.BilinearCorner(0.0, 1.0);
    Pan.BilinearCorner(1.0, 1.0);
    Pan.BilinearCorner(0.0, 0.0);
    Pan.BilinearCorner(1.0, 0.0);
  }

  // ---------------------------------------------------------------- pitch

  /** MIDI pitch of a pad: fourths up the rows, semitones along a row. */
  function Pitch(key: int, octave: int, x: int, yl: int): int
  {
    36 + key + x + yl * 5 + octave * 12
  }

  /** With the key, octave and pad in range the pitch stays in 0..125. */
  lemma PitchRange(key: int, octave: int, x: int, yl: int)
    requires 0 <= key < 12 && -OctaveBound <= octave <= OctaveBound && OnGrid(x, yl)
    ensures 0 <= Pitch(key, octave, x, yl) <= 125
  {
  }

  // ---------------------------------------------------------------- quantiser

  function Abs(r: real): real
  {
    if r < 0.0 then -r else r
  }

  /** `k` is the FIRST degree of `scale` at least as close to `rel` as every other. */
  ghost predicate FirstClosest(scale: seq<real>, rel: real, k: int)
  {
    && 0 <= k < |scale|
    && (forall j :: 0 <= j < |scale| ==> Abs(scale[k] - rel) <= Abs(scale[j] - rel))
    && (forall j :: 0 <= j < k ==> Abs(scale[j] - rel) > Abs(scale[k] - rel))
  }

  /** Index of the degree `min(scale, key=|d - rel|)` returns: a left-to-right
      scan that only replaces its candidate by a strictly closer degree. */
  function ClosestIndex(scale: seq<real>, rel: real): (k: nat)
    requires |scale| > 0
    ensures FirstClosest(scale, rel, k)
  {
    if |scale| == 1 then 0
    else
      var k' := ClosestIndex(scale[..|scale| - 1], rel);
      if Abs(scale[|scale| - 1] - rel) < Abs(scale[k'] - rel) then |scale| - 1 else k'
  }

  function Closest(scale: seq<real>, rel: real): real
    requires |scale| > 0
  {
    scale[ClosestIndex(scale, rel)]
  }

  /** Pitch class of `pitch` relative to the key, in 0..11. */
  function RelPitch(pitch: int, key: int): int
  {
    (pitch - key) % 12
  }

  /** Whether the closest degree is within the 0.5-semitone snap threshold. */
  predicate Snaps(pitch: int, key: int, scale: seq<real>)
    requires |scale| > 0
  {
    var rel := RelPitch(pitch, key);
    Abs(Closest(scale, rel as real) - rel as real) < 0.5
  }

  /** The pitch a voice is tuned to: aligned to the closest degree when it snaps,
      otherwise the pad's pitch unchanged. */
  function Quantize(pitch: int, key: int, scale: seq<real>): real
    requires |scale| > 0
  {
    var rel := RelPitch(pitch, key);
    if Snaps(pitch, key, scale) then (pitch - rel) as real + Closest(scale, rel as real)
    else pitch as real
  }

  /** The quantiser snaps exactly when SOME degree lies within 0.5 of the pitch
      class; it then lands on that octave's copy of the first closest degree,
      `key + 12k + degree`, less than half a semitone from the pad's pitch, and
      otherwise leaves the pitch alone. */
  lemma QuantizeSpec(pitch: int, key: int, scale: seq<real>)
    requires |scale| > 0
    ensures 0 <= RelPitch(pitch, key) < 12
    ensures Snaps(pitch, key, scale) <==>
              exists j :: 0 <= j < |scale| && Abs(scale[j] - RelPitch(pitch, key) as real) < 0.5
    ensures Snaps(pitch, key, scale) ==>
              && Quantize(pitch, key, scale) == (key + 12 * ((pitch - key) / 12)) as real + Closest(scale, RelPitch(pitch, key) as real)
              && Abs(Quantize(pitch, key, scale) - pitch as real) < 0.5
    ensures !Snaps(pitch, key, scale) ==> Quantize(pitch, key, scale) == pitch as real
  {
    var rel := RelPitch(pitch, key);
    var k := ClosestIndex(scale, rel as real);
    assert pitch - key == 12 * ((pitch - key) / 12) + rel;
    if exists j :: 0 <= j < |scale| && Abs(scale[j] - rel as real) < 0.5 {
      var j :| 0 <= j < |scale| && Abs(scale[j] - rel as real) < 0.5;
      assert Abs(scale[k] - rel as real) <= Abs(scale[j] - rel as real);
    }
  }

  // ---------------------------------------------------------------- LED colour

  datatype Colour = White | Red | Green | Off

  /** Colour of a pad: white while its pad sounds or its pitch is held; else red
      on a root (the matched degree within 0.1 of 0), green on another scale
      degree, dark off the scale. */
  function PadColour(lit: bool, pitch: int, key: int, scale: seq<real>): Colour
    requires |scale| > 0
  {
    if lit then White
    else
      var rel := RelPitch(pitch, key);
      var closest := Closest(scale, rel as real);
      if Abs(closest - rel as real) < 0.5 then
        if Abs(closest) < 0.1 then Red else Green
      else Off
  }

  /** What the colour means: an unlit pad shows a colour exactly when its pitch
      snaps to the scale, and an unlit snapped pad is red exactly when its
      quantised pitch is within 0.1 of a copy of the key. */
  lemma PadColourMeaning(lit: bool, pitch: int, key: int, scale: seq<real>)
    requires |scale| > 0
    ensures PadColour(lit, pitch, key, scale) == White <==> lit
    ensures !lit ==> (PadColour(lit, pitch, key, scale) != Off <==> Snaps(pitch, key, scale))
    ensures PadColour(lit, pitch, key, scale) == Red ==>
              Abs(Quantize(pitch, key, scale) - (key + 12 * ((pitch - key) / 12)) as real) < 0.1
    ensures !lit && Snaps(pitch, key, scale) ==>
              (PadColour(lit, pitch, key, scale) == Red <==>
               Abs(Quantize(pitch, key, scale) - (key + 12 * ((pitch - key) / 12)) as real) < 0.1)
  {
    QuantizeSpec(pitch, key, scale);
  }

  /** The colour tuple handed to the driver and kept in the LED cache. An Mk1
      takes (red, green) levels 0..3, an Mk2 (r, g, b) levels 0..63; "off" is
      the 3-tuple on both. */
  function Components(gen: Gen, c: Colour): (r: seq<int>)
    ensures 2 <= |r| <= 3
    ensures gen == Mk2 ==> |r| == 3
  {
    match c
    case White => if gen == Mk2 then [63, 63, 63] else [3, 3]
    case Red => if gen == Mk2 then [63, 0, 0] else [3, 0]
    case Green => if gen == Mk2 then [0, 63, 0] else [0, 3]
    case Off => [0, 0, 0]
  }

  /** Comparing cached tuples is comparing colours. */
  lemma ComponentsInjective(gen: Gen, c: Colour, d: Colour)
    ensures Components(gen, c) == Components(gen, d) <==> c == d
  {
    if c != d {
      assert Components(gen, c)[0] != Components(gen, d)[0] || Components(gen, c)[1] != Components(gen, d)[1]
        || |Components(gen, c)| != |Components(gen, d)|;
    }
  }

  /** The raw LED write of a tuple: an Mk1 receives the first two components. */
  function PadWrite(gen: Gen, id: int, components: seq<int>): LedWrite
    requires |components| >= 2
  {
    if gen == Mk2 && |components| >= 3 then LedWrite(id, components[..3])
    else LedWrite(id, components[..2])
  }

  // ---------------------------------------------------------------- pad ids

  /** Raw id of logical pad (x, yl): `(yl+1)*10 + x+1` on an Mk2, `(7-yl)*16 + x` on an Mk1. */
  function PadId(gen: Gen, x: int, yl: int): int
  {
    match gen
    case Mk2 => (yl + 1) * 10 + (x + 1)
    case Mk1 => (7 - yl) * 16 + x
  }

  /** The decode used when re-tuning and releasing voices (no range check). */
  function DecodePad(gen: Gen, pid: int): (int, int)
  {
    match gen
    case Mk2 => (pid % 10 - 1, pid / 10 - 1)
    case Mk1 => (pid % 16, 7 - pid / 16)
  }

  /** The listener's grid decode: `None` for side buttons and off-grid ids. */
  function GridFromRaw(gen: Gen, bid: int): Option<(int, int)>
  {
    var (x, yl) :=
      if gen == Mk2 && bid % 10 != 9 then DecodePad(Mk2, bid)
      else if gen == Mk1 && bid % 16 < 8 then DecodePad(Mk1, bid)
      else (-1, -1);
    if 0 <= x < 8 && 0 <= yl < 8 then Some((x, yl)) else None
  }

  /** Both decodes invert the pad-id encoding, and the synth's logical rows are
      the other scripts' rows counted from the bottom. */
  lemma PadIdRoundTrip(gen: Gen, x: int, yl: int)
    requires OnGrid(x, yl)
    ensures DecodePad(gen, PadId(gen, x, yl)) == (x, yl)
    ensures GridFromRaw(gen, PadId(gen, x, yl)) == Some((x, yl))
    ensures PadId(gen, x, yl) == GridId(gen, x, 7 - yl)
  {
    var pid := PadId(gen, x, yl);
    match gen
    case Mk2 =>
      assert pid % 10 == x + 1 && pid / 10 == yl + 1;
    case Mk1 =>
      assert pid % 16 == x && pid / 16 == 7 - yl;
  }

  /** Every id the listener accepts as a pad is the id of the pad it decodes to. */
  lemma GridFromRawInverse(gen: Gen, bid: int)
    ensures GridFromRaw(gen, bid).Some? ==>
              var (x, yl) := GridFromRaw(gen, bid).value;
              OnGrid(x, yl) && PadId(gen, x, yl) == bid && DecodePad(gen, bid) == (x, yl)
  {
  }

  /** Two different pads never share an id. */
  lemma PadIdInjective(gen: Gen, x: int, yl: int, x': int, yl': int)
    requires OnGrid(x, yl) && OnGrid(x', yl')
    requires PadId(gen, x, yl) == PadId(gen, x', yl')
    ensures x == x' && yl == yl'
  {
    PadIdRoundTrip(gen, x, yl);
    PadIdRoundTrip(gen, x', yl');
  }

  /** Whether `bid` is one of the eight top-row buttons, and which. */
  predicate IsTop(gen: Gen, bid: int)
  {
    if gen == Mk1 then 200 <= bid <= 207 else 104 <= bid <= 111
  }

  function TopIdx(gen: Gen, bid: int): int
  {
    if gen == Mk1 then bid - 200 else bid - 104
  }

  /** Side-column index of `bid` counted from the top, or -1 when the id does
      not have the side column's residue. */
  function SideIdx(gen: Gen, bid: int): int
  {
    if gen == Mk2 && bid % 10 == 9 then 8 - bid / 10
    else if gen == Mk1 && bid % 16 == 8 then bid / 16
    else -1
  }

  /** The power button: the seventh side button (side index 6). */
  function PowerBtn(gen: Gen): int
  {
    if gen == Mk2 then 29 else 104
  }

  /** The side LED ids `89 - 10i` / `8 + 16i` decode back to `i`; the power button
      is side button 6 on both generations; no grid pad has a side index. */
  lemma SideIdxDecodesSideButtons(gen: Gen, i: int, x: int, yl: int)
    requires 0 <= i < 8 && OnGrid(x, yl)
    ensures SideIdx(gen, SideBtn(gen, i)) == i
    ensures PowerBtn(gen) == SideBtn(gen, 6) && SideIdx(gen, PowerBtn(gen)) == 6
    ensures SideIdx(gen, PadId(gen, x, yl)) == -1
  {
    var pid := PadId(gen, x, yl);
    match gen
    case Mk2 =>
      assert SideBtn(gen, i) == (8 - i) * 10 + 9;
      assert pid % 10 == x + 1;
    case Mk1 =>
      assert SideBtn(gen, i) == i * 16 + 8;
      assert pid % 16 == x;
  }

  /** A top-row press is never mistaken for a side-column action or a pad. */
  lemma TopIsNotSideOrPad(gen: Gen, bid: int)
    requires IsTop(gen, bid)
    ensures SideIdx(gen, bid) < 0 || SideIdx(gen, bid) > 7
    ensures GridFromRaw(gen, bid) == None
  {
  }

  // ---------------------------------------------------------------- random scale

  ghost predicate Sorted(s: seq<real>)
  {
    forall i, j :: 0 <= i < j < |s| ==> s[i] <= s[j]
  }

  /** Neighbouring degrees are more than half a semitone apart (hence strictly increasing). */
  ghost predicate Gapped(s: seq<real>)
  {
    forall i :: 0 < i < |s| ==> s[i - 1] + 0.5 < s[i]
  }

  /** `v` is more than half a semitone from every degree of `s`. */
  predicate FarFromAll(v: real, s: seq<real>)
  {
    forall j :: 0 <= j < |s| ==> Abs(v - s[j]) > 0.5
  }

  /** Any two degrees are more than half a semitone apart. */
  ghost predicate Spaced(s: seq<real>)
  {
    forall i, j :: 0 <= i < j < |s| ==> Abs(s[i] - s[j]) > 0.5
  }

  /** Inserts `v` before the first element not smaller than it. */
  function Insert(v: real, s: seq<real>): (r: seq<real>)
    ensures multiset(r) == multiset(s) + multiset{v}
  {
    if s == [] then [v]
    else if v <= s[0] then [v] + s
    else
      assert s == [s[0]] + s[1..];
      [s[0]] + Insert(v, s[1..])
  }

  /** A bound below `v` and every element stays below everything after the insertion. */
  lemma {:induction false} InsertBounded(v: real, s: seq<real>, b: real)
    requires b <= v && forall k :: 0 <= k < |s| ==> b <= s[k]
    ensures forall k :: 0 <= k < |Insert(v, s)| ==> b <= Insert(v, s)[k]
  {
    if s != [] && v > s[0] {
      InsertBounded(v, s[1..], b);
      assert Insert(v, s) == [s[0]] + Insert(v, s[1..]);
    }
  }

  lemma {:induction false} InsertSorted(v: real, s: seq<real>)
    requires Sorted(s)
    ensures Sorted(Insert(v, s))
  {
    if s == [] {
    } else if v <= s[0] {
      SortedCons(v, s);
    } else {
      InsertSorted(v, s[1..]);
      InsertBounded(v, s[1..], s[0]);
      SortedCons(s[0], Insert(v, s[1..]));
    }
  }

  /** A sorted sequence stays sorted with a bound below it put in front. */
  lemma SortedCons(b: real, t: seq<real>)
    requires Sorted(t) && (t == [] || b <= t[0])
    ensures Sorted([b] + t)
  {
    var r := [b] + t;
    forall i, j | 0 <= i < j < |r| ensures r[i] <= r[j] {
      assert r[j] == t[j - 1];
      if i > 0 {
        assert r[i] == t[i - 1];
      } else if j > 1 {
        assert t[0] <= t[j - 1];
      }
    }
  }

  /** Insertion sort: the same degrees, in ascending order (Python's `list.sort`
      produces the same sequence, the sorted order of a sequence being unique). */
  function SortReals(s: seq<real>): (r: seq<real>)
    ensures multiset(r) == multiset(s)
    ensures Sorted(r)
  {
    if s == [] then []
    else
      assert s == [s[0]] + s[1..];
      InsertSorted(s[0], SortReals(s[1..]));
      Insert(s[0], SortReals(s[1..]))
  }

  lemma {:induction false} InsertGapped(v: real, s: seq<real>)
    requires Gapped(s) && FarFromAll(v, s)
    ensures Gapped(Insert(v, s))
  {
    if s != [] && v > s[0] {
      InsertGapped(v, s[1..]);
      var t := Insert(v, s[1..]);
      assert t[0] in multiset(t);
      assert t[0] == v || t[0] in s[1..];
      if t[0] != v {
        var j :| 0 <= j < |s[1..]| && s[1..][j] == t[0];
        if j > 0 {
          GappedIncreasing(s, 1, j + 1);
        }
      }
    }
  }

  lemma GappedIncreasing(s: seq<real>, i: int, j: int)
    requires Gapped(s) && 0 <= i < j < |s|
    ensures s[i] + 0.5 < s[j]
    decreases j - i
  {
    if i + 1 < j {
      GappedIncreasing(s, i, j - 1);
    }
  }

  /** Sorting degrees that are pairwise more than 0.5 apart gives a strictly
      ascending scale with every step above 0.5. */
  lemma {:induction false} SortSpaced(s: seq<real>)
    requires Spaced(s)
    ensures Gapped(SortReals(s))
  {
    if s != [] {
      assert Spaced(s[1..]);
      SortSpaced(s[1..]);
      var t := SortReals(s[1..]);
      forall j | 0 <= j < |t| ensures Abs(s[0] - t[j]) > 0.5 {
        assert t[j] in multiset(s[1..]);
        var i :| 0 <= i < |s[1..]| && s[1..][i] == t[j];
        assert s[i + 1] == t[j];
      }
      InsertGapped(s[0], t);
    }
  }

  /** `init_random_scale`: starting from the root, keep each uniform draw that is
      more than 0.5 from every degree kept so far until `count` degrees are kept
      (or the draws run out), then sort. `used` is the number of draws consumed. */
  method RandomScale(count: int, draws: seq<real>) returns (scale: seq<real>, used: nat)
    requires 5 <= count <= 8
    requires forall i :: 0 <= i < |draws| ==> 0.8 <= draws[i] <= 11.5
    ensures used <= |draws|
    ensures 0 < |scale| <= count
    ensures |scale| == count || used == |draws|
    ensures scale[0] == 0.0
    ensures Gapped(scale)
    ensures forall v :: v in scale ==> v == 0.0 || v in draws[..used]
    ensures forall k :: 0 <= k < used ==> Judged(draws[k], scale)
    ensures |scale| == count ==> 0 < used && draws[used - 1] in scale
    ensures scale == SortReals(Sieve(draws[..used]))
    ensures 0 < used ==> |Sieve(draws[..used - 1])| < count
  {
    var kept := [0.0];
    used := 0;
    assert draws[..0] == [];
    while |kept| < count && used < |draws|
      invariant KeptSoFar(count, draws, used, kept)
      invariant kept == Sieve(draws[..used])
      invariant 0 < used ==> |Sieve(draws[..used - 1])| < count
    {
      var v := draws[used];
      SieveFirstCome(draws, used);
      assert draws[..used + 1][..used] == draws[..used];
      if FarFromAll(v, kept) {
        KeepDraw(count, draws, used, kept);
        kept := kept + [v];
      } else {
        DropDraw(count, draws, used, kept);
      }
      used := used + 1;
    }
    ScaleFromKept(count, draws, used, kept);
    scale := SortReals(kept);
  }

  /** The loop state of `init_random_scale` after `used` draws: the root first,
      the kept degrees pairwise more than 0.5 apart and all drawn, every draw
      so far kept or within 0.5 of a kept degree, and the last draw kept when
      the count is reached. */
  ghost predicate KeptSoFar(count: int, draws: seq<real>, used: int, kept: seq<real>)
  {
    && 0 <= used <= |draws|
    && 0 < |kept| <= count
    && kept[0] == 0.0
    && Spaced(kept)
    && (forall i :: 0 < i < |kept| ==> kept[i] in draws[..used])
    && (forall k :: 0 <= k < used ==> Judged(draws[k], kept))
    && (|kept| == count ==> 0 < used && kept[|kept| - 1] == draws[used - 1])
  }

  /** The degrees the greedy rule keeps from the draws `ds`, in order of
      drawing: the root, then each draw more than 0.5 from every degree kept
      before it. */
  function Sieve(ds: seq<real>): (r: seq<real>)
    ensures |r| > 0 && r[0] == 0.0
  {
    if ds == [] then [0.0]
    else
      var before := Sieve(ds[..|ds| - 1]);
      if FarFromAll(ds[|ds| - 1], before) then before + [ds[|ds| - 1]] else before
  }

  /** First come wins: draw `k` is kept exactly when it is more than 0.5 from
      every degree kept from the draws before it, and a dropped draw changes
      nothing. */
  lemma SieveFirstCome(ds: seq<real>, k: int)
    requires 0 <= k < |ds|
    ensures var before := Sieve(ds[..k]);
            Sieve(ds[..k + 1]) == if FarFromAll(ds[k], before) then before + [ds[k]] else before
  {
    assert ds[..k + 1][..k] == ds[..k];
  }

  /** Of two draws within 0.5 of each other the earlier is kept: 5.0 then 5.2
      keeps 5.0. */
  lemma SieveKeepsEarlierOfClosePair()
    ensures Sieve([5.0, 5.2]) == [0.0, 5.0]
  {
  }

  /** A draw far from every kept degree is kept. */
  lemma KeepDraw(count: int, draws: seq<real>, used: int, kept: seq<real>)
    requires KeptSoFar(count, draws, used, kept) && |kept| < count && used < |draws|
    requires FarFromAll(draws[used], kept)
    ensures KeptSoFar(count, draws, used + 1, kept + [draws[used]])
  {
    var v := draws[used];
    var kept' := kept + [v];
    assert draws[..used + 1] == draws[..used] + [v];
    JudgedGrows(draws, used, kept, v);
    assert kept'[|kept|] == v;
    forall i, j | 0 <= i < j < |kept'| ensures Abs(kept'[i] - kept'[j]) > 0.5 {
      if j == |kept| {
        assert Abs(v - kept[i]) > 0.5;
      }
    }
  }

  /** A draw within 0.5 of a kept degree is dropped. */
  lemma DropDraw(count: int, draws: seq<real>, used: int, kept: seq<real>)
    requires KeptSoFar(count, draws, used, kept) && |kept| < count && used < |draws|
    requires !FarFromAll(draws[used], kept)
    ensures KeptSoFar(count, draws, used + 1, kept)
  {
    assert draws[..used + 1] == draws[..used] + [draws[used]];
  }

  /** The kept degrees, sorted: the root first, every step above 0.5, nothing
      but the root and consumed draws, every consumed draw judged against the
      result, and the last draw in it when the count was reached. */
  lemma ScaleFromKept(count: int, draws: seq<real>, used: int, kept: seq<real>)
    requires KeptSoFar(count, draws, used, kept)
    requires forall i :: 0 <= i < |draws| ==> 0.8 <= draws[i]
    ensures |SortReals(kept)| == |kept|
    ensures SortReals(kept)[0] == 0.0 && Gapped(SortReals(kept))
    ensures forall v :: v in SortReals(kept) ==> v == 0.0 || v in draws[..used]
    ensures forall k :: 0 <= k < used ==> Judged(draws[k], SortReals(kept))
    ensures |kept| == count ==> 0 < used && draws[used - 1] in SortReals(kept)
  {
    var scale := SortReals(kept);
    assert |scale| == |multiset(scale)| == |multiset(kept)| == |kept|;
    SortSpaced(kept);
    JudgedSorted(draws, used, kept);
    forall v | v in scale ensures v == 0.0 || v in draws[..used] {
      assert v in multiset(kept);
      var i :| 0 <= i < |kept| && kept[i] == v;
    }
    assert 0.0 in scale by { assert kept[0] in kept; }
    var z :| 0 <= z < |scale| && scale[z] == 0.0;
    assert scale[0] <= scale[z];
    assert scale[0] in scale;
    if |kept| == count {
      assert kept[|kept| - 1] in kept;
    }
  }

  /** Draw `v` was judged against the degrees `s`: it is one of them, or it
      lies within 0.5 of one (and was therefore dropped). */
  predicate Judged(v: real, s: seq<real>)
  {
    v in s || !FarFromAll(v, s)
  }

  /** Keeping one more degree keeps every earlier judgement. */
  lemma JudgedGrows(ds: seq<real>, n: int, kept: seq<real>, v: real)
    requires n <= |ds| && forall k :: 0 <= k < n ==> Judged(ds[k], kept)
    ensures forall k :: 0 <= k < n ==> Judged(ds[k], kept + [v])
  {
    forall k | 0 <= k < n ensures Judged(ds[k], kept + [v]) {
      if ds[k] !in kept {
        var j :| 0 <= j < |kept| && Abs(ds[k] - kept[j]) <= 0.5;
        assert (kept + [v])[j] == kept[j];
      }
    }
  }

  /** Sorting the kept degrees keeps every judgement and every degree. */
  lemma JudgedSorted(ds: seq<real>, n: int, kept: seq<real>)
    requires n <= |ds| && forall k :: 0 <= k < n ==> Judged(ds[k], kept)
    ensures forall k :: 0 <= k < n ==> Judged(ds[k], SortReals(kept))
    ensures forall v :: v in kept ==> v in SortReals(kept)
  {
    var scale := SortReals(kept);
    forall v | v in kept ensures v in scale {
      assert v in multiset(scale);
    }
    forall k | 0 <= k < n ensures Judged(ds[k], scale) {
      if ds[k] !in kept {
        var j :| 0 <= j < |kept| && Abs(ds[k] - kept[j]) <= 0.5;
        assert kept[j] in scale;
        var i :| 0 <= i < |scale| && scale[i] == kept[j];
      }
    }
  }


}
