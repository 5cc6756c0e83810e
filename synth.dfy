/** The harmonic grid synth's running state: the 16-slot voice pool with its
    pad map and held pitches, the LED cache in front of the driver, the
    listener step, the arpeggiator and the drum sequencer. */
module Synth {
  import opened Launchpad
  import opened SynthCore
  import opened SynthControls
  import opened Modular
  import SortedSets

  /** What is recorded of one voice: the MIDI pitch its oscillator was last
      tuned to (`None` before the first tuning, while it still runs at its
      start-up frequency), its four channel gains and whether its envelope is
      gated on. */
  datatype Voice = Voice(pitch: Option<real>, gains: seq<real>, gate: bool)

  const Silent: Voice := Voice(None, [0.0, 0.0, 0.0, 0.0], false)

  // ---------------------------------------------------------------- pool bookkeeping

  /** The pad map and pointer after a run of presses: each pad is mapped to the
      slot under the pointer, which then advances modulo 16. A pad already in
      the map is simply re-mapped, and a slot taken over from another pad is
      not removed from that pad's entry. */
  function Assign(active: map<int, int>, ptr: int, pids: seq<int>): (map<int, int>, int)
    decreases |pids|
  {
    if |pids| == 0 then (active, ptr)
    else Assign(active[pids[0] := ptr], (ptr + 1) % MaxVoices, pids[1..])
  }

  /** Round robin: after n presses the pointer has moved n slots. */
  lemma {:induction false} AssignAdvances(active: map<int, int>, ptr: int, pids: seq<int>)
    requires 0 <= ptr < MaxVoices
    ensures Assign(active, ptr, pids).1 == (ptr + |pids|) % MaxVoices
    decreases |pids|
  {
    if |pids| > 0 {
      var ptr' := (ptr + 1) % MaxVoices;
      AssignAdvances(active[pids[0] := ptr], ptr', pids[1..]);
      if ptr + 1 == MaxVoices {
        assert ptr' == 0;
      }
    }
  }

  /** Pads not pressed keep their entries (or their absence). */
  lemma {:induction false} AssignKeepsOthers(active: map<int, int>, ptr: int, pids: seq<int>, p: int)
    requires p !in pids
    ensures p in Assign(active, ptr, pids).0 <==> p in active
    ensures p in active ==> Assign(active, ptr, pids).0[p] == active[p]
    decreases |pids|
  {
    if |pids| > 0 {
      assert p !in pids[1..];
      AssignKeepsOthers(active[pids[0] := ptr], (ptr + 1) % MaxVoices, pids[1..], p);
    }
  }

  /** The i-th press owns slot `ptr + i` (mod 16) unless its pad is pressed
      again later. */
  lemma {:induction false} AssignOwner(active: map<int, int>, ptr: int, pids: seq<int>, i: int)
    requires 0 <= ptr < MaxVoices
    requires 0 <= i < |pids| && pids[i] !in pids[i + 1..]
    ensures pids[i] in Assign(active, ptr, pids).0
    ensures Assign(active, ptr, pids).0[pids[i]] == (ptr + i) % MaxVoices
    decreases |pids|
  {
    var active', ptr', rest := active[pids[0] := ptr], (ptr + 1) % MaxVoices, pids[1..];
    if i == 0 {
      AssignKeepsOthers(active', ptr', rest, pids[0]);
    } else {
      assert rest[i - 1] == pids[i];
      assert rest[i..] == pids[i + 1..];
      AssignOwner(active', ptr', rest, i - 1);
      if ptr + 1 == MaxVoices {
        assert ptr' == 0;
      }
    }
  }

  /** The pool as written: the 17th of 17 distinct pads pressed from an empty
      pool takes slot 0 again, and the first pad's entry still names slot 0. */
  lemma SeventeenthNoteSharesSlot(pids: seq<int>)
    requires |pids| == MaxVoices + 1
    requires forall i, j :: 0 <= i < j < |pids| ==> pids[i] != pids[j]
    ensures var (active, ptr) := Assign(map[], 0, pids);
            && pids[0] in active && pids[MaxVoices] in active
            && active[pids[0]] == 0 && active[pids[MaxVoices]] == 0 && ptr == 1
  {
    AssignAdvances(map[], 0, pids);
    assert pids[0] !in pids[1..];
    AssignOwner(map[], 0, pids, 0);
    assert pids[MaxVoices + 1..] == [];
    AssignOwner(map[], 0, pids, MaxVoices);
  }

  /** The dict's key order after `active_voices[pid] = ...`: a new key goes
      last, a key already present keeps its place. */
  function Enlist(order: seq<int>, pid: int): seq<int>
  {
    if pid in order then order else order + [pid]
  }

  /** The key order after `del active_voices[pid]`: the pad leaves, the
      others keep their order. */
  function Delist(order: seq<int>, pid: int): (r: seq<int>)
    ensures forall p :: p in r <==> p in order && p != pid
    decreases |order|
  {
    if |order| == 0 then []
    else (if order[0] == pid then [] else [order[0]]) + Delist(order[1..], pid)
  }

  predicate Distinct(s: seq<int>)
  {
    forall i, j :: 0 <= i < j < |s| ==> s[i] != s[j]
  }

  /** Deleting a key keeps the keys distinct. */
  lemma {:induction false} DelistDistinct(order: seq<int>, pid: int)
    requires Distinct(order)
    ensures Distinct(Delist(order, pid))
    decreases |order|
  {
    if |order| > 0 {
      var head := if order[0] == pid then [] else [order[0]];
      var tail := Delist(order[1..], pid);
      DelistDistinct(order[1..], pid);
      assert order[0] !in order[1..];
      forall i, j | 0 <= i < j < |head + tail| ensures (head + tail)[i] != (head + tail)[j] {
        if i < |head| {
          assert (head + tail)[j] == tail[j - 1] && tail[j - 1] in order[1..];
        } else {
          assert (head + tail)[i] == tail[i - |head|] && (head + tail)[j] == tail[j - |head|];
        }
      }
    }
  }

  /** Storing a new key and deleting it again restores the key order. */
  lemma {:induction false} EnlistDelistRoundTrip(order: seq<int>, pid: int)
    requires pid !in order
    ensures Delist(Enlist(order, pid), pid) == order
    decreases |order|
  {
    if |order| == 0 {
      assert Delist([pid], pid) == [] + Delist([], pid);
    } else {
      assert (order + [pid])[1..] == order[1..] + [pid];
      EnlistDelistRoundTrip(order[1..], pid);
      assert order == [order[0]] + order[1..];
    }
  }

  /** The pitch of the pad a raw id decodes to (the decode has no range check). */
  function PadPitch(gen: Gen, key: int, octave: int, pid: int): int
  {
    var (x, yl) := DecodePad(gen, pid);
    Pitch(key, octave, x, yl)
  }

  /** Some pad in the map has the pitch under the current key and octave. */
  predicate StillSounding(gen: Gen, key: int, octave: int, active: map<int, int>, pitch: int)
  {
    exists p :: p in active && PadPitch(gen, key, octave, p) == pitch
  }

  /** `stop_note`'s bookkeeping: drop the pad, and drop the pitch unless another
      mapped pad still has it. */
  function Release(gen: Gen, key: int, octave: int, active: map<int, int>, held: set<int>, pid: int, pitch: int)
    : (map<int, int>, set<int>)
  {
    var active' := active - {pid};
    (active', if !StillSounding(gen, key, octave, active', pitch) && pitch in held then held - {pitch} else held)
  }

  /** A release only ever forgets the released pitch, never a pitch another
      remaining pad sounds, and always forgets the pad. */
  lemma ReleaseForgetsOnlyItsPitch(gen: Gen, key: int, octave: int, active: map<int, int>, held: set<int>, pid: int, pitch: int)
    ensures var (active', held') := Release(gen, key, octave, active, held, pid, pitch);
            && pid !in active' && active'.Keys == active.Keys - {pid}
            && held' <= held && held - held' <= {pitch}
            && (pitch in held && StillSounding(gen, key, octave, active', pitch) ==> pitch in held')
            && (pitch in held && !StillSounding(gen, key, octave, active', pitch) ==> pitch !in held')
  {
  }

  /** Pressing and releasing a pad with nothing else at its pitch, key and
      octave unchanged in between, leaves map and held pitches as before. */
  lemma PlayReleaseRoundTrip(gen: Gen, key: int, octave: int, active: map<int, int>, ptr: int, held: set<int>, x: int, yl: int)
    requires OnGrid(x, yl)
    requires PadId(gen, x, yl) !in active
    requires Pitch(key, octave, x, yl) !in held
    requires !StillSounding(gen, key, octave, active, Pitch(key, octave, x, yl))
    ensures var pid, pitch := PadId(gen, x, yl), Pitch(key, octave, x, yl);
            Release(gen, key, octave, Assign(active, ptr, [pid]).0, held + {pitch}, pid, pitch) == (active, held)
  {
    var pid, pitch := PadId(gen, x, yl), Pitch(key, octave, x, yl);
    var active' := Assign(active, ptr, [pid]).0;
    assert Assign(active, ptr, [pid]) == Assign(active[pid := ptr], (ptr + 1) % MaxVoices, []);
    assert active' == active[pid := ptr];
    assert active' - {pid} == active;
    assert held + {pitch} - {pitch} == held;
  }

  /** The held-pitch set as written: a key change between press and release
      leaves the pressed pitch held with no pad sounding it. */
  lemma StaleHeldPitch()
    ensures var pid := PadId(Mk2, 0, 0);
            var (active, ptr) := Assign(map[], 0, [pid]);
            var held := {Pitch(0, 0, 0, 0)};
            var (active', held') := Release(Mk2, 1, 0, active, held, pid, Pitch(1, 0, 0, 0));
            active' == map[] && held' == {36}
  {
    var pid := PadId(Mk2, 0, 0);
    assert pid == 11 && [pid][1..] == [];
    var active := Assign(map[], 0, [pid]).0;
    assert Assign(map[], 0, [pid]) == Assign(map[11 := 0], 1, []);
    assert active == map[11 := 0];
    assert active - {pid} == map[];
  }

  // ---------------------------------------------------------------- LED cache

  /** One `update_pad_immediate` against the cache: skip the driver when the
      cache already holds the tuple, otherwise write it and remember it. */
  function CachedWrite(gen: Gen, cache: map<int, seq<int>>, log: seq<LedWrite>, pid: int, comps: seq<int>)
    : (map<int, seq<int>>, seq<LedWrite>)
    requires |comps| >= 2
  {
    if pid in cache && cache[pid] == comps then (cache, log)
    else (cache[pid := comps], log + [PadWrite(gen, pid, comps)])
  }

  /** After a cached write the pad's entry is the tuple and no other entry
      changes; the driver receives at most one write, exactly when the cache did
      not already hold the tuple; repeating the write sends nothing. */
  lemma CachedWriteSettles(gen: Gen, cache: map<int, seq<int>>, log: seq<LedWrite>, pid: int, comps: seq<int>)
    requires |comps| >= 2
    ensures var (cache', log') := CachedWrite(gen, cache, log, pid, comps);
            && cache' == cache[pid := comps]
            && (log' == log <==> pid in cache && cache[pid] == comps)
            && (log' != log ==> log' == log + [PadWrite(gen, pid, comps)])
            && CachedWrite(gen, cache', log', pid, comps) == (cache', log')
  {
    if pid in cache && cache[pid] == comps {
      assert cache[pid := comps] == cache;
    } else {
      assert |log + [PadWrite(gen, pid, comps)]| == |log| + 1;
    }
  }

  /** The last write the driver received for LED `id`, if any. */
  function LastWrite(log: seq<LedWrite>, id: int): (r: Option<LedWrite>)
    ensures r.Some? ==> r.value.id == id && r.value in log
    ensures r.None? <==> forall k :: 0 <= k < |log| ==> log[k].id != id
  {
    if log == [] then None
    else if log[|log| - 1].id == id then Some(log[|log| - 1])
    else LastWrite(log[..|log| - 1], id)
  }

  /** One more write changes the last write of its own LED only. */
  lemma LastWriteAppend(log: seq<LedWrite>, w: LedWrite, id: int)
    ensures LastWrite(log + [w], id) == if w.id == id then Some(w) else LastWrite(log, id)
  {
  }

  /** The driver's last write to pad `p`, when cached, is the cached tuple. */
  ghost predicate PadAgrees(gen: Gen, cache: map<int, seq<int>>, log: seq<LedWrite>, p: int)
  {
    p in cache ==> |cache[p]| >= 2 && LastWrite(log, p) == Some(PadWrite(gen, p, cache[p]))
  }

  /** The driver agrees with the cache on every cached pad. */
  ghost predicate LogAgrees(gen: Gen, cache: map<int, seq<int>>, log: seq<LedWrite>)
  {
    forall p {:trigger PadAgrees(gen, cache, log, p)} :: PadAgrees(gen, cache, log, p)
  }

  /** A cached write keeps the driver and the cache in agreement. */
  lemma CachedWriteAgrees(gen: Gen, cache: map<int, seq<int>>, log: seq<LedWrite>, pid: int, comps: seq<int>)
    requires |comps| >= 2 && LogAgrees(gen, cache, log)
    ensures var (cache', log') := CachedWrite(gen, cache, log, pid, comps);
            LogAgrees(gen, cache', log')
  {
    if !(pid in cache && cache[pid] == comps) {
      var w := PadWrite(gen, pid, comps);
      var cache', log' := cache[pid := comps], log + [w];
      forall p {:trigger PadAgrees(gen, cache', log', p)} ensures PadAgrees(gen, cache', log', p) {
        LastWriteAppend(log, w, p);
        assert PadAgrees(gen, cache, log, p);
      }
    }
  }

  /** The writes of `clear_all_leds`: ids 11..111 with (0,0,0) on an Mk2, ids
      0..127 with (0,0) on an Mk1. */
  function ClearWrites(gen: Gen): seq<LedWrite>
  {
    if gen == Mk2 then seq(101, i => LedWrite(11 + i, [0, 0, 0]))
    else seq(128, i => LedWrite(i, [0, 0]))
  }

  /** Clearing turns off every pad and every side LED on both generations, and
      the top row on an Mk2; the Mk1 top row (ids 200..207) is outside the
      cleared range. */
  lemma ClearWritesCover(gen: Gen, x: int, yl: int, i: int)
    requires OnGrid(x, yl) && 0 <= i < 8
    ensures exists k :: 0 <= k < |ClearWrites(gen)| && ClearWrites(gen)[k] == PadWrite(gen, PadId(gen, x, yl), Components(gen, Off))
    ensures exists k :: 0 <= k < |ClearWrites(gen)| && ClearWrites(gen)[k].id == SideBtn(gen, i)
    ensures gen == Mk2 <==> exists k :: 0 <= k < |ClearWrites(gen)| && ClearWrites(gen)[k].id == TopBtn(gen, i)
  {
    var w := ClearWrites(gen);
    if gen == Mk2 {
      var k := PadId(gen, x, yl) - 11;
      assert w[k] == PadWrite(gen, PadId(gen, x, yl), Components(gen, Off));
      assert w[SideBtn(gen, i) - 11].id == SideBtn(gen, i);
      assert w[TopBtn(gen, i) - 11].id == TopBtn(gen, i);
    } else {
      var k := PadId(gen, x, yl);
      assert w[k] == PadWrite(gen, PadId(gen, x, yl), Components(gen, Off));
      assert w[SideBtn(gen, i)].id == SideBtn(gen, i);
      assert forall k :: 0 <= k < |w| ==> w[k].id == k;
    }
  }

  /** Every grid pad's decode is its cell: distinct cells have distinct ids. */
  lemma PadIdsDecode(gen: Gen)
    ensures forall x, yl :: OnGrid(x, yl) ==> DecodePad(gen, PadId(gen, x, yl)) == (x, yl)
  {
    forall x, yl | OnGrid(x, yl) ensures DecodePad(gen, PadId(gen, x, yl)) == (x, yl) {
      PadIdRoundTrip(gen, x, yl);
    }
  }

  /** Actions after which the listener re-tunes the sounding voices. */
  predicate Transposes(a: Action)
  {
    a == KeyUp || a == KeyDown || a == OctaveUp || a == OctaveDown
  }

  /** Actions after which the listener repaints the grid. */
  predicate RefreshesGrid(a: Action)
  {
    Transposes(a) || a == ScaleUp || a == ScaleDown || a == VolDown || a == VolUp
    || a == CycleReverb || a == CycleDelay || a == ToggleArp || a == CycleDrums
  }

  // ---------------------------------------------------------------- the synth

  /** The pitch mapped pad `p`'s voice is re-tuned to under key, octave and scale. */
  function Tuned(gen: Gen, key: int, octave: int, scale: seq<real>, p: int): real
    requires |scale| > 0
  {
    Quantize(PadPitch(gen, key, octave, p), key, scale)
  }

  /** The slot pad `p` is mapped to, -1 for an unmapped pad. */
  function SlotOf(active: map<int, int>, p: int): int
  {
    if p in active then active[p] else -1
  }

  /** No later pad in `order` shares the slot of the i-th. */
  predicate LastInSlot(active: map<int, int>, order: seq<int>, i: int)
    requires 0 <= i < |order|
  {
    forall j :: i < j < |order| ==> SlotOf(active, order[j]) != SlotOf(active, order[i])
  }

  /** Re-tuning, in `order`, the slot of every pad: each visit sets the slot's
      pitch, so a later pad overwrites an earlier one on a shared slot. */
  function RetuneAll(gen: Gen, key: int, octave: int, scale: seq<real>, active: map<int, int>,
                     before: seq<Voice>, order: seq<int>): (r: seq<Voice>)
    requires |scale| > 0
    ensures |r| == |before|
    decreases |order|
  {
    if |order| == 0 then before
    else
      var prev := RetuneAll(gen, key, octave, scale, active, before, order[..|order| - 1]);
      var p := order[|order| - 1];
      var v := SlotOf(active, p);
      if 0 <= v < |prev| then prev[v := prev[v].(pitch := Some(Tuned(gen, key, octave, scale, p)))] else prev
  }

  /** What a re-tuning pass in `order` leaves behind: only pitches change; a
      slot no pad in `order` maps to is untouched; a slot pads map to carries
      the re-tuned pitch of the LAST of them in `order`. */
  ghost predicate LastWins(gen: Gen, key: int, octave: int, scale: seq<real>, active: map<int, int>,
                           order: seq<int>, before: seq<Voice>, after: seq<Voice>)
    requires |scale| > 0
  {
    && |after| == |before|
    && (forall v :: 0 <= v < |before| ==> after[v].gains == before[v].gains && after[v].gate == before[v].gate)
    && (forall v :: 0 <= v < |before| && (forall i :: 0 <= i < |order| ==> SlotOf(active, order[i]) != v) ==>
          after[v] == before[v])
    && (forall i :: 0 <= i < |order| && 0 <= SlotOf(active, order[i]) < |before| && LastInSlot(active, order, i) ==>
          after[SlotOf(active, order[i])].pitch == Some(Tuned(gen, key, octave, scale, order[i])))
  }

  /** The re-tuning pass in `order` ends with the last-visited pad's pitch on
      every shared slot. */
  lemma {:induction false} RetuneAllLastWins(gen: Gen, key: int, octave: int, scale: seq<real>, active: map<int, int>,
                                             before: seq<Voice>, order: seq<int>)
    requires |scale| > 0
    ensures LastWins(gen, key, octave, scale, active, order, before, RetuneAll(gen, key, octave, scale, active, before, order))
    decreases |order|
  {
    if |order| > 0 {
      var n := |order|;
      var front := order[..n - 1];
      var prev := RetuneAll(gen, key, octave, scale, active, before, front);
      var r := RetuneAll(gen, key, octave, scale, active, before, order);
      var w := SlotOf(active, order[n - 1]);
      RetuneAllLastWins(gen, key, octave, scale, active, before, front);
      forall v | 0 <= v < |before| && (forall i :: 0 <= i < n ==> SlotOf(active, order[i]) != v)
        ensures r[v] == before[v]
      {
        assert SlotOf(active, order[n - 1]) != v;
        forall i | 0 <= i < |front| ensures SlotOf(active, front[i]) != v {
          assert front[i] == order[i];
        }
      }
      forall i | 0 <= i < n && 0 <= SlotOf(active, order[i]) < |before| && LastInSlot(active, order, i)
        ensures r[SlotOf(active, order[i])].pitch == Some(Tuned(gen, key, octave, scale, order[i]))
      {
        if i < n - 1 {
          assert SlotOf(active, order[n - 1]) != SlotOf(active, order[i]);
          assert front[i] == order[i];
          assert LastInSlot(active, front, i) by {
            forall j | i < j < |front| ensures SlotOf(active, front[j]) != SlotOf(active, front[i]) {
              assert front[j] == order[j];
            }
          }
        }
      }
    }
  }

  /** The voice pool as a value: the pad map, its key order, the pointer,
      the held pitches and the voices. */
  datatype Pool = Pool(active: map<int, int>, order: seq<int>, ptr: int, held: set<int>, voices: seq<Voice>)

  class Synth {
    const gen: Gen
    /** The scale table in listing order, the random scale last. */
    const scales: seq<seq<real>>
    const voices: array<Voice>
    var ctl: Controls
    /** `active_voices`: pad id to voice slot. */
    var activeVoices: map<int, int>
    /** The keys of `active_voices` in the dict's insertion order. */
    var padOrder: seq<int>
    var heldPitches: set<int>
    var voicePtr: int
    /** `led_cache`: the last tuple written to each pad. */
    var ledCache: map<int, seq<int>>
    /** Every raw write handed to the driver, in order. */
    var ledLog: seq<LedWrite>

    ghost predicate ScaleOk()
      reads this`ctl
    {
      0 <= ctl.scaleIdx < |scales| && |scales[ctl.scaleIdx]| > 0
    }

    ghost predicate Valid()
      reads this`ctl, this`activeVoices, this`padOrder, this`voicePtr, this`ledCache, this`ledLog
    {
      && voices.Length == MaxVoices
      && |scales| > 0 && (forall i :: 0 <= i < |scales| ==> |scales[i]| > 0)
      && ControlsOk(ctl, |scales|)
      && ScaleOk()
      && 0 <= voicePtr < MaxVoices
      && (forall p :: p in activeVoices ==> 0 <= activeVoices[p] < MaxVoices && GridFromRaw(gen, p).Some?)
      && (forall p :: p in padOrder <==> p in activeVoices) && Distinct(padOrder)
      && LogAgrees(gen, ledCache, ledLog)
    }

    /** The voice pool as a value. */
    function PoolState(): Pool
      reads this`activeVoices, this`padOrder, this`voicePtr, this`heldPitches, voices
    {
      Pool(activeVoices, padOrder, voicePtr, heldPitches, voices[..])
    }

    /** Start-up: key C, the first scale, octave 0, no voices, empty cache. */
    constructor (gen: Gen, randomScale: seq<real>)
      requires |randomScale| > 0
      ensures Valid() && this.gen == gen && scales == FixedScales + [randomScale]
      ensures ctl == Initial && activeVoices == map[] && padOrder == [] && heldPitches == {} && voicePtr == 0
      ensures ledCache == map[] && ledLog == []
      ensures fresh(voices) && voices[..] == seq(MaxVoices, _ => Silent)
    {
      this.gen := gen;
      scales := FixedScales + [randomScale];
      voices := new Voice[MaxVoices](_ => Silent);
      ctl := Initial;
      activeVoices := map[];
      padOrder := [];
      heldPitches := {};
      voicePtr := 0;
      ledCache := map[];
      ledLog := [];
      new;
      FixedScalesStartAtRoot();
    }

    function Scale(): seq<real>
      reads this`ctl
      requires ScaleOk()
    {
      scales[ctl.scaleIdx]
    }

    function PitchAt(x: int, yl: int): int
      reads this`ctl
    {
      Pitch(ctl.key, ctl.octave, x, yl)
    }

    /** The tuple pad (x, yl) should show: its colour for the current pool,
        held pitches, key and scale. */
    function Desired(x: int, yl: int): seq<int>
      reads this`ctl, this`activeVoices, this`heldPitches
      requires ScaleOk()
    {
      var pitch := PitchAt(x, yl);
      Components(gen, PadColour(PadId(gen, x, yl) in activeVoices || pitch in heldPitches, pitch, ctl.key, Scale()))
    }

    /** The cache holds the pad's desired tuple. */
    ghost predicate Shows(x: int, yl: int)
      reads this`ctl, this`activeVoices, this`heldPitches, this`ledCache
      requires ScaleOk()
    {
      PadId(gen, x, yl) in ledCache && ledCache[PadId(gen, x, yl)] == Desired(x, yl)
    }

    /** The driver's last write to pad (x, yl) is its desired tuple. */
    ghost predicate Displays(x: int, yl: int)
      reads this`ctl, this`activeVoices, this`heldPitches, this`ledLog
      requires ScaleOk()
    {
      LastWrite(ledLog, PadId(gen, x, yl)) == Some(PadWrite(gen, PadId(gen, x, yl), Desired(x, yl)))
    }

    predicate Targeted(target: Option<int>, x: int, yl: int)
      reads this`ctl
    {
      target.None? || PitchAt(x, yl) == target.value
    }

    /** `p` is the id of a pad the repaint targets. */
    ghost predicate TargetPad(target: Option<int>, p: int)
      reads this`ctl
    {
      var (x, yl) := DecodePad(gen, p);
      OnGrid(x, yl) && PadId(gen, x, yl) == p && Targeted(target, x, yl)
    }

    /** `update_pad_immediate`. */
    method UpdatePad(x: int, yl: int)
      requires ScaleOk() && OnGrid(x, yl)
      modifies this`ledCache, this`ledLog
      ensures (ledCache, ledLog) == CachedWrite(gen, old(ledCache), old(ledLog), PadId(gen, x, yl), Desired(x, yl))
    {
      var pid := PadId(gen, x, yl);
      var col := Desired(x, yl);
      if pid in ledCache && ledCache[pid] == col {
        return;
      }
      ledLog := ledLog + [PadWrite(gen, pid, col)];
      ledCache := ledCache[pid := col];
    }

    /** `clear_all_leds`: turn everything off and forget the cache. */
    method ClearAllLeds()
      modifies this`ledCache, this`ledLog
      ensures ledCache == map[] && ledLog == old(ledLog) + ClearWrites(gen)
    {
      var lo, hi, comps := 0, 128, [0, 0];
      if gen == Mk2 {
        lo, hi, comps := 11, 112, [0, 0, 0];
      }
      var i := lo;
      while i < hi
        invariant lo <= i <= hi
        invariant ledLog == old(ledLog) + ClearWrites(gen)[..i - lo]
      {
        ledLog := ledLog + [LedWrite(i, comps)];
        i := i + 1;
      }
      ledCache := map[];
    }

    /** Repaint, row by row, every pad (`target == None`, the pad half of
        `refresh_grid_immediate`) or the pads with pitch `target.value`
        (`update_pitch_leds`). Afterwards each repainted pad shows its desired
        tuple and no other cache entry has changed. */
    method RefreshPads(target: Option<int>)
      requires ScaleOk()
      modifies this`ledCache, this`ledLog
      ensures forall x, yl :: OnGrid(x, yl) && Targeted(target, x, yl) ==> Shows(x, yl)
      ensures forall p :: p in old(ledCache) && !TargetPad(target, p) ==> p in ledCache && ledCache[p] == old(ledCache)[p]
      ensures forall p :: p in ledCache ==> p in old(ledCache) || TargetPad(target, p)
      ensures old(ledLog) <= ledLog
      ensures LogAgrees(gen, old(ledCache), old(ledLog)) ==> LogAgrees(gen, ledCache, ledLog)
    {
      var yl := 0;
      while yl < 8
        invariant 0 <= yl <= 8
        invariant forall x', yl' :: OnGrid(x', yl') && yl' < yl && Targeted(target, x', yl') ==> Shows(x', yl')
        invariant forall p :: p in old(ledCache) && !TargetPad(target, p) ==> p in ledCache && ledCache[p] == old(ledCache)[p]
        invariant forall p :: p in ledCache ==> p in old(ledCache) || TargetPad(target, p)
        invariant old(ledLog) <= ledLog
        invariant LogAgrees(gen, old(ledCache), old(ledLog)) ==> LogAgrees(gen, ledCache, ledLog)
      {
        RefreshRow(target, yl);
        yl := yl + 1;
      }
    }

    /** With the driver in agreement with the cache, every pad the cache
        shows is shown on the device too. */
    lemma ShownIsDisplayed()
      requires ScaleOk() && LogAgrees(gen, ledCache, ledLog)
      ensures forall x, yl :: OnGrid(x, yl) && Shows(x, yl) ==> Displays(x, yl)
    {
      forall x, yl | OnGrid(x, yl) && Shows(x, yl) ensures Displays(x, yl) {
        assert PadAgrees(gen, ledCache, ledLog, PadId(gen, x, yl));
      }
    }

    /** `p` is the id of a pad in row `yl` the repaint targets. */
    ghost predicate RowPad(target: Option<int>, yl: int, p: int)
      reads this`ctl
    {
      TargetPad(target, p) && DecodePad(gen, p).1 == yl
    }

    /** One row of the repaint, left to right. */
    method RefreshRow(target: Option<int>, yl: int)
      requires ScaleOk() && 0 <= yl < 8
      modifies this`ledCache, this`ledLog
      ensures forall x :: 0 <= x < 8 && Targeted(target, x, yl) ==> Shows(x, yl)
      ensures forall x', yl' :: OnGrid(x', yl') && yl' != yl && old(Shows(x', yl')) ==> Shows(x', yl')
      ensures forall p :: p in old(ledCache) && !RowPad(target, yl, p) ==> p in ledCache && ledCache[p] == old(ledCache)[p]
      ensures forall p :: p in ledCache ==> p in old(ledCache) || RowPad(target, yl, p)
      ensures old(ledLog) <= ledLog
      ensures LogAgrees(gen, old(ledCache), old(ledLog)) ==> LogAgrees(gen, ledCache, ledLog)
    {
      var x := 0;
      while x < 8
        invariant 0 <= x <= 8
        invariant forall x' :: 0 <= x' < x && Targeted(target, x', yl) ==> Shows(x', yl)
        invariant forall x', yl' :: OnGrid(x', yl') && yl' != yl && old(Shows(x', yl')) ==> Shows(x', yl')
        invariant forall p :: p in old(ledCache) && !RowPad(target, yl, p) ==> p in ledCache && ledCache[p] == old(ledCache)[p]
        invariant forall p :: p in ledCache ==> p in old(ledCache) || RowPad(target, yl, p)
        invariant old(ledLog) <= ledLog
        invariant LogAgrees(gen, old(ledCache), old(ledLog)) ==> LogAgrees(gen, ledCache, ledLog)
      {
        RepaintPad(target, x, yl);
        x := x + 1;
      }
    }

    /** One pad of the row repaint: a cached write of its desired tuple when
        the repaint targets it, nothing otherwise. The other pads of the row
        keep what they show. */
    method RepaintPad(target: Option<int>, x: int, yl: int)
      requires ScaleOk() && OnGrid(x, yl)
      modifies this`ledCache, this`ledLog
      ensures Targeted(target, x, yl) ==> (ledCache, ledLog) == CachedWrite(gen, old(ledCache), old(ledLog), PadId(gen, x, yl), Desired(x, yl))
      ensures !Targeted(target, x, yl) ==> ledCache == old(ledCache) && ledLog == old(ledLog)
      ensures Targeted(target, x, yl) ==> Shows(x, yl)
      ensures forall x', yl' :: OnGrid(x', yl') && (x' != x || yl' != yl) && old(Shows(x', yl')) ==> Shows(x', yl')
      ensures forall p :: p in old(ledCache) && !RowPad(target, yl, p) ==> p in ledCache && ledCache[p] == old(ledCache)[p]
      ensures forall p :: p in ledCache ==> p in old(ledCache) || RowPad(target, yl, p)
      ensures old(ledLog) <= ledLog
      ensures LogAgrees(gen, old(ledCache), old(ledLog)) ==> LogAgrees(gen, ledCache, ledLog)
    {
      if Targeted(target, x, yl) {
        ghost var cache, log := ledCache, ledLog;
        UpdatePad(x, yl);
        CachedWriteSettles(gen, cache, log, PadId(gen, x, yl), Desired(x, yl));
        if LogAgrees(gen, cache, log) {
          CachedWriteAgrees(gen, cache, log, PadId(gen, x, yl), Desired(x, yl));
        }
        PadIdRoundTrip(gen, x, yl);
        assert RowPad(target, yl, PadId(gen, x, yl));
        forall x', yl' | OnGrid(x', yl') && (x' != x || yl' != yl) && old(Shows(x', yl')) ensures Shows(x', yl') {
          if PadId(gen, x', yl') == PadId(gen, x, yl) {
            PadIdInjective(gen, x', yl', x, yl);
          }
        }
      }
    }

    /** `play_note`: tune the voice under the pointer to the quantised pitch,
        pan it by position, gate it, map the pad to it, advance the pointer,
        hold the pitch and repaint the pads of that pitch. */
    method PlayNote(pid: int, x: int, yl: int)
      requires Valid() && OnGrid(x, yl) && pid == PadId(gen, x, yl)
      modifies this, voices
      ensures Valid() && ctl == old(ctl)
      ensures PoolState() == Played(old(PoolState()), pid, x, yl)
      ensures PitchRepainted(PitchAt(x, yl), old(ledCache))
      ensures Desired(x, yl) == Components(gen, White)
      ensures old(ledLog) <= ledLog
    {
      var pitch := PitchAt(x, yl);
      var v := voicePtr;
      ghost var pool := PoolState();
      voices[v] := Voice(Some(Quantize(pitch, ctl.key, Scale())), QuadGains(x, yl), true);
      padOrder := Enlist(padOrder, pid);
      activeVoices := activeVoices[pid := v];
      voicePtr := (v + 1) % MaxVoices;
      heldPitches := heldPitches + {pitch};
      assert Assign(pool.active, pool.ptr, [pid]) == Assign(activeVoices, voicePtr, []);
      assert PoolState() == Played(pool, pid, x, yl);
      assert Distinct(padOrder) by {
        if pid !in pool.order {
          assert forall i :: 0 <= i < |pool.order| ==> padOrder[i] == pool.order[i];
        }
      }
      PadIdRoundTrip(gen, x, yl);
      RefreshPads(Some(pitch));
      ShownIsDisplayed();
    }

    /** `stop_note`: release the pad's voice if it has one, forget the pad,
        forget the pitch unless another mapped pad still has it, and repaint
        the pads of that pitch. */
    method StopNote(pid: int, x: int, yl: int)
      requires Valid() && OnGrid(x, yl) && pid == PadId(gen, x, yl)
      modifies this, voices
      ensures Valid() && ctl == old(ctl)
      ensures PoolState() == Stopped(old(PoolState()), pid, x, yl)
      ensures PitchRepainted(PitchAt(x, yl), old(ledCache))
      ensures old(ledLog) <= ledLog
    {
      var pitch := PitchAt(x, yl);
      if pid in activeVoices {
        var v := activeVoices[pid];
        voices[v] := voices[v].(gate := false);
        DelistDistinct(padOrder, pid);
        padOrder := Delist(padOrder, pid);
        activeVoices := activeVoices - {pid};
      } else {
        assert activeVoices - {pid} == activeVoices;
      }
      var stillHeld := StillSounding(gen, ctl.key, ctl.octave, activeVoices, pitch);
      if !stillHeld && pitch in heldPitches {
        heldPitches := heldPitches - {pitch};
      }
      RefreshPads(Some(pitch));
      ShownIsDisplayed();
    }

    /** The pitch a mapped pad's voice is re-tuned to. */
    function TunedPitch(p: int): real
      reads this`ctl
      requires ScaleOk()
    {
      Tuned(gen, ctl.key, ctl.octave, Scale(), p)
    }

    /** `apply_immediate_transpose`: re-tune, in the dict's key order, the
        voice of every mapped pad to its pad's quantised pitch under the
        current key, scale and octave; a slot two pads share ends on the pitch
        of the later one. */
    method ApplyTranspose()
      requires Valid()
      modifies voices
      ensures voices[..] == RetuneAll(gen, ctl.key, ctl.octave, Scale(), activeVoices, old(voices[..]), padOrder)
      ensures LastWins(gen, ctl.key, ctl.octave, Scale(), activeVoices, padOrder, old(voices[..]), voices[..])
    {
      ghost var before := voices[..];
      for i := 0 to |padOrder|
        invariant voices[..] == RetuneAll(gen, ctl.key, ctl.octave, Scale(), activeVoices, before, padOrder[..i])
      {
        var p := padOrder[i];
        var v := activeVoices[p];
        voices[v] := voices[v].(pitch := Some(TunedPitch(p)));
        assert padOrder[..i + 1][..i] == padOrder[..i];
      }
      assert padOrder[..|padOrder|] == padOrder;
      RetuneAllLastWins(gen, ctl.key, ctl.octave, Scale(), activeVoices, before, padOrder);
    }

    /** The pool after `play_note` on pad `pid` at (x, yl): the slot under
        the pointer tuned to the quantised pitch, panned and gated; the pad
        mapped to it (a new key last in the key order); the pointer advanced;
        the pitch held. */
    function Played(p: Pool, pid: int, x: int, yl: int): Pool
      reads this`ctl
      requires ScaleOk() && 0 <= p.ptr < |p.voices|
    {
      var pitch := PitchAt(x, yl);
      var (active, ptr) := Assign(p.active, p.ptr, [pid]);
      Pool(active, Enlist(p.order, pid), ptr, p.held + {pitch},
           p.voices[p.ptr := Voice(Some(Quantize(pitch, ctl.key, Scale())), QuadGains(x, yl), true)])
    }

    /** The pool after `stop_note` on pad `pid` at (x, yl): a mapped pad's
        voice released and its key deleted; the pitch forgotten unless another
        mapped pad still has it. */
    function Stopped(p: Pool, pid: int, x: int, yl: int): Pool
      reads this`ctl
    {
      var (active, held) := Release(gen, ctl.key, ctl.octave, p.active, p.held, pid, PitchAt(x, yl));
      if pid in p.active && 0 <= p.active[pid] < |p.voices| then
        var v := p.active[pid];
        Pool(active, Delist(p.order, pid), p.ptr, held, p.voices[v := p.voices[v].(gate := false)])
      else Pool(active, p.order, p.ptr, held, p.voices)
    }

    /** The pool after listener action `a`, under the updated controllers:
        pads play and stop, transposing actions re-tune the mapped voices in
        key order, and every other action leaves the pool alone. */
    ghost predicate PoolAfter(a: Action, p: Pool, p': Pool)
      reads this`ctl
      requires ScaleOk()
    {
      if a.PadOn? then 0 <= p.ptr < |p.voices| && p' == Played(p, a.pid, a.x, a.yl)
      else if a.PadOff? then p' == Stopped(p, a.pid, a.x, a.yl)
      else if Transposes(a) then
        && p'.(voices := p.voices) == p
        && LastWins(gen, ctl.key, ctl.octave, Scale(), p.active, p.order, p.voices, p'.voices)
      else p' == p
    }

    /** Every pad of pitch `pitch` shows its colour in the cache and on the
        device, and no other cache entry changed since `cache`. */
    ghost predicate PitchRepainted(pitch: int, cache: map<int, seq<int>>)
      reads this`ctl, this`activeVoices, this`heldPitches, this`ledCache, this`ledLog
      requires ScaleOk()
    {
      && (forall x, yl :: OnGrid(x, yl) && PitchAt(x, yl) == pitch ==> Shows(x, yl) && Displays(x, yl))
      && (forall p :: p in cache && !TargetPad(Some(pitch), p) ==> p in ledCache && ledCache[p] == cache[p])
    }

    /** Every pad shows its colour in the cache and on the device. */
    ghost predicate AllShow()
      reads this`ctl, this`activeVoices, this`heldPitches, this`ledCache, this`ledLog
      requires ScaleOk()
    {
      forall x, yl :: OnGrid(x, yl) ==> Shows(x, yl) && Displays(x, yl)
    }

    /** One listener action: update the controllers, then re-tune, play,
        release and repaint as the listener does. */
    method Apply(a: Action)
      requires Valid() && WellFormed(gen, a)
      modifies this, voices
      ensures Valid()
      ensures ctl == Mutate(old(ctl), a, |scales|)
      ensures PoolAfter(a, old(PoolState()), PoolState())
      ensures a.PadOn? || a.PadOff? ==> PitchRepainted(PitchAt(a.x, a.yl), old(ledCache))
      ensures RefreshesGrid(a) ==> AllShow()
      ensures !RefreshesGrid(a) && !a.PadOn? && !a.PadOff? ==> ledCache == old(ledCache) && ledLog == old(ledLog)
      ensures old(ledLog) <= ledLog
    {
      UpdateControls(a);
      if a.PadOn? || a.PadOff? {
        assert !RefreshesGrid(a);
        PadEvent(a);
      } else {
        ApplyControl(a);
      }
    }

    /** A pad press plays its note, a release stops it. */
    method PadEvent(a: Action)
      requires Valid() && WellFormed(gen, a) && (a.PadOn? || a.PadOff?)
      modifies this, voices
      ensures Valid() && ctl == old(ctl)
      ensures PoolAfter(a, old(PoolState()), PoolState())
      ensures PitchRepainted(PitchAt(a.x, a.yl), old(ledCache))
      ensures old(ledLog) <= ledLog
    {
      if a.PadOn? {
        PlayNote(a.pid, a.x, a.yl);
      } else {
        StopNote(a.pid, a.x, a.yl);
      }
    }

    /** The listener's update of the controllers for action `a`. */
    method UpdateControls(a: Action)
      requires Valid()
      modifies this`ctl
      ensures Valid() && ctl == Mutate(old(ctl), a, |scales|)
    {
      ctl := Mutate(ctl, a, |scales|);
    }

    /** A controller action after the controllers are updated: re-tune the
        mapped voices after every key or octave press (an octave press clamped
        at ±3 included; a scale press re-tunes nothing), then repaint the
        whole grid when its colours may have changed. */
    method ApplyControl(a: Action)
      requires Valid() && !a.PadOn? && !a.PadOff?
      modifies this`ledCache, this`ledLog, voices
      ensures PoolAfter(a, old(PoolState()), PoolState())
      ensures RefreshesGrid(a) ==> AllShow()
      ensures !RefreshesGrid(a) ==> ledCache == old(ledCache) && ledLog == old(ledLog)
      ensures old(ledLog) <= ledLog && LogAgrees(gen, ledCache, ledLog)
    {
      if Transposes(a) {
        ApplyTranspose();
      }
      ghost var tuned := voices[..];
      if RefreshesGrid(a) {
        RefreshPads(None);
        ShownIsDisplayed();
      }
      assert voices[..] == tuned;
    }

    /** One pass of `launchpad_listener`: step the held harmonics buttons
        (repainting after each), then act on the event read, if any. */
    method Step(ev: Option<(int, int)>)
      requires Valid()
      modifies this, voices
      ensures Valid()
      ensures ctl == if ev.Some? then Mutate(HarmonicsTick(old(ctl)), DecodeEvent(gen, ev.value.0, ev.value.1), |scales|)
                     else HarmonicsTick(old(ctl))
      ensures ev.None? ==> PoolState() == old(PoolState())
      ensures ev.Some? ==> PoolAfter(DecodeEvent(gen, ev.value.0, ev.value.1), old(PoolState()), PoolState())
      ensures var nudged := old(ctl).harmsUp || old(ctl).harmsDown;
              && (ev.None? && nudged ==> AllShow())
              && (ev.None? && !nudged ==> ledCache == old(ledCache) && ledLog == old(ledLog))
      ensures ev.Some? ==>
                var a := DecodeEvent(gen, ev.value.0, ev.value.1);
                var nudged := old(ctl).harmsUp || old(ctl).harmsDown;
                && (RefreshesGrid(a) ==> AllShow())
                && (a.PadOn? || a.PadOff? ==> if nudged then AllShow() else PitchRepainted(PitchAt(a.x, a.yl), old(ledCache)))
                && (!nudged && !RefreshesGrid(a) && !a.PadOn? && !a.PadOff? ==> ledCache == old(ledCache) && ledLog == old(ledLog))
      ensures old(ledLog) <= ledLog
    {
      NudgeHeld();
      if ev.Some? {
        var (bid, state) := ev.value;
        var a := DecodeEvent(gen, bid, state);
        DecodeEventWellFormed(gen, bid, state);
        label Nudged:
        Apply(a);
        if (old(ctl).harmsUp || old(ctl).harmsDown) && (a.PadOn? || a.PadOff?) {
          OthersStillShow@Nudged(a);
          ShownIsDisplayed();
        }
      }
    }

    /** After a pad event every pad of another pitch keeps its colour: the
        event changes the pad map only at its own pad and the held pitches
        only at its own pitch. So a grid that showed every colour before the
        event, and had the event's pitch repainted, shows every colour. */
    twostate lemma OthersStillShow(a: Action)
      requires old(ScaleOk()) && ScaleOk() && ctl == old(ctl)
      requires WellFormed(gen, a) && (a.PadOn? || a.PadOff?)
      requires old(AllShow())
      requires PoolAfter(a, old(PoolState()), PoolState())
      requires PitchRepainted(PitchAt(a.x, a.yl), old(ledCache))
      ensures forall x, yl :: OnGrid(x, yl) ==> Shows(x, yl)
    {
      forall x, yl | OnGrid(x, yl) ensures Shows(x, yl) {
        var pid := PadId(gen, x, yl);
        if PitchAt(x, yl) != PitchAt(a.x, a.yl) {
          PadIdRoundTrip(gen, x, yl);
          assert !TargetPad(Some(PitchAt(a.x, a.yl)), pid);
          if pid == a.pid {
            PadIdInjective(gen, x, yl, a.x, a.yl);
          }
          if a.PadOn? {
            AssignKeepsOthers(old(activeVoices), old(voicePtr), [a.pid], pid);
          } else {
            ReleaseForgetsOnlyItsPitch(gen, ctl.key, ctl.octave, old(activeVoices), old(heldPitches), a.pid, PitchAt(a.x, a.yl));
          }
          assert (pid in activeVoices <==> pid in old(activeVoices));
          assert (PitchAt(x, yl) in heldPitches <==> PitchAt(x, yl) in old(heldPitches));
          assert Desired(x, yl) == old(Desired(x, yl));
        }
      }
    }

    /** The start of a listener pass: each held harmonics button steps the
        count and repaints the grid. */
    method NudgeHeld()
      requires Valid()
      modifies this`ctl, this`ledCache, this`ledLog
      ensures Valid() && ctl == HarmonicsTick(old(ctl)) && old(ledLog) <= ledLog
      ensures old(ctl).harmsUp || old(ctl).harmsDown ==> AllShow()
      ensures !old(ctl).harmsUp && !old(ctl).harmsDown ==> ledCache == old(ledCache) && ledLog == old(ledLog)
    {
      if ctl.harmsUp {
        Nudge(true);
      }
      if ctl.harmsDown {
        Nudge(false);
      }
    }

    /** One held harmonics button: move the count one step towards its bound
        and repaint the grid. */
    method Nudge(up: bool)
      requires Valid()
      modifies this`ctl, this`ledCache, this`ledLog
      ensures Valid() && AllShow() && old(ledLog) <= ledLog
      ensures ctl == old(ctl).(harmonics := if up then (if old(ctl).harmonics + 1 > MaxHarmonics then MaxHarmonics else old(ctl).harmonics + 1)
                                            else (if old(ctl).harmonics - 1 < MinHarmonics then MinHarmonics else old(ctl).harmonics - 1))
    {
      var h := if up then (if ctl.harmonics + 1 > MaxHarmonics then MaxHarmonics else ctl.harmonics + 1)
               else (if ctl.harmonics - 1 < MinHarmonics then MinHarmonics else ctl.harmonics - 1);
      ctl := ctl.(harmonics := h);
      RefreshPads(None);
      ShownIsDisplayed();
    }
  }

  // ---------------------------------------------------------------- arpeggiator

  /** The octave walk: step by the direction, and turn round on reaching ±3. */
  function Bounce(octave: int, direction: int): (r: (int, int))
    ensures -OctaveBound <= octave <= OctaveBound && (direction == 1 || direction == -1)
            && (octave == OctaveBound ==> direction == -1) && (octave == -OctaveBound ==> direction == 1)
            ==> && -OctaveBound <= r.0 <= OctaveBound && (r.1 == 1 || r.1 == -1)
                && (r.0 == OctaveBound ==> r.1 == -1) && (r.0 == -OctaveBound ==> r.1 == 1)
  {
    var o := octave + direction;
    (o, if o >= OctaveBound || o <= -OctaveBound then -direction else direction)
  }

  function BounceN(octave: int, direction: int, k: nat): (int, int)
    decreases k
  {
    if k == 0 then (octave, direction)
    else var (o, d) := Bounce(octave, direction); BounceN(o, d, k - 1)
  }

  /** From the start (octave 0, going up) the walk goes 0,1,2,3,2,...,-3,...,0
      and is back at the start after twelve ticks. */
  lemma BouncePeriod()
    ensures BounceN(0, 1, 3) == (3, -1)
    ensures BounceN(0, 1, 9) == (-3, 1)
    ensures BounceN(0, 1, 12) == (0, 1)
  {
  }

  /** The note the arpeggiator plays at pointer `ptr`: the held pitches in
      ascending order, indexed cyclically, shifted by `octave` octaves. It is
      always a held pitch so shifted. */
  function ArpNote(held: set<int>, ptr: int, octave: int): (n: int)
    requires held != {} && ptr >= 0
    ensures n - 12 * octave in held
  {
    var sorted := SortedSets.SortedSeq(held);
    sorted[ptr % |sorted|] + 12 * octave
  }

  /** After as many steps as there are held pitches the same note comes round
      again. */
  lemma ArpNoteRepeats(held: set<int>, ptr: int, octave: int)
    requires held != {} && ptr >= 0
    ensures ArpNote(held, ptr + |held|, octave) == ArpNote(held, ptr, octave)
  {
    var k := |held|;
    assert |SortedSets.SortedSeq(held)| == k;
    ModShift(ptr, k);
    var sorted := SortedSets.SortedSeq(held);
    assert ArpNote(held, ptr + |held|, octave) == sorted[(ptr + k) % k] + 12 * octave;
  }

  /** Within one cycle through the held pitches the notes rise strictly. */
  lemma ArpNoteRises(held: set<int>, ptr: int, octave: int)
    requires held != {} && ptr >= 0
    requires ptr % |held| < |held| - 1
    ensures ArpNote(held, ptr, octave) < ArpNote(held, ptr + 1, octave)
  {
    var sorted := SortedSets.SortedSeq(held);
    var k := |held|;
    assert |sorted| == k;
    ModUnique(ptr + 1, k, ptr / k, ptr % k + 1);
    assert SortedSets.StrictlyIncreasing(sorted);
  }

  /** The arpeggiator thread's counters. */
  class Arpeggiator {
    var ptr: int
    var octave: int
    var direction: int

    ghost predicate Valid()
      reads this
    {
      && ptr >= 0
      && -OctaveBound <= octave <= OctaveBound && (direction == 1 || direction == -1)
      && (octave == OctaveBound ==> direction == -1) && (octave == -OctaveBound ==> direction == 1)
    }

    constructor ()
      ensures Valid() && ptr == 0 && octave == 0 && direction == 1
    {
      ptr, octave, direction := 0, 0, 1;
    }

    /** One pass of `arpeggiator_loop`: while it is on and pitches are held,
        tune all sixteen voices to the next held pitch (ascending order,
        wrapping) shifted by the walk's octave, advance the walk, and wait one
        delay time (0.2 s while the delay is off); otherwise wait 0.1 s. */
    method Tick(s: Synth) returns (sleep: real)
      requires Valid() && s.Valid()
      modifies this, s.voices
      ensures Valid()
      ensures s.ctl.arp && s.heldPitches != {} ==>
                && ptr == old(ptr) + 1
                && (octave, direction) == Bounce(old(octave), old(direction))
                && sleep == (if s.ctl.delay > 0 then DelayTime(s.ctl.delay) else 0.2)
                && forall v :: 0 <= v < MaxVoices ==>
                     s.voices[v] == old(s.voices[v]).(pitch := Some(ArpNote(s.heldPitches, old(ptr), old(octave)) as real))
      ensures !(s.ctl.arp && s.heldPitches != {}) ==>
                ptr == old(ptr) && octave == old(octave) && direction == old(direction)
                && s.voices[..] == old(s.voices[..]) && sleep == 0.1
    {
      if s.ctl.arp && s.heldPitches != {} {
        var note := ArpNote(s.heldPitches, ptr, octave);
        sleep := if s.ctl.delay > 0 then DelayTime(s.ctl.delay) else 0.2;
        for v := 0 to MaxVoices
          modifies s.voices
          invariant forall w :: 0 <= w < v ==> s.voices[w] == old(s.voices[w]).(pitch := Some(note as real))
          invariant forall w :: v <= w < MaxVoices ==> s.voices[w] == old(s.voices[w])
        {
          s.voices[v] := s.voices[v].(pitch := Some(note as real));
        }
        ptr := ptr + 1;
        octave, direction := Bounce(octave, direction).0, Bounce(octave, direction).1;
      } else {
        sleep := 0.1;
      }
    }
  }

  // ---------------------------------------------------------------- drums

  /** The drum thread's step counter and the instruments it has struck. */
  class DrumMachine {
    var step: int
    var hits: seq<int>

    ghost predicate Valid()
      reads this
    {
      0 <= step < 16
    }

    constructor ()
      ensures Valid() && step == 0 && hits == []
    {
      step, hits := 0, [];
    }

    /** One pass of `drum_loop` in drum mode `mode`. `silenced` is the red
        mode's 25% draw, `reps` the 1..4 repetition draw (used in the green and
        amber modes), `inst` the 0..11 instrument draw; instruments 9..11 strike
        nothing. `beats` is the number of beat-long waits taken. */
    method Tick(mode: int, silenced: bool, reps: int, inst: int) returns (beats: nat)
      requires Valid() && 0 <= mode < 4 && 1 <= reps <= 4 && 0 <= inst <= 11
      modifies this
      ensures Valid()
      ensures mode == 0 ==> beats == 0 && step == old(step) && hits == old(hits)
      ensures mode == 3 && silenced ==> beats == 1 && step == (old(step) + 1) % 16 && hits == old(hits)
      ensures mode != 0 && !(mode == 3 && silenced) ==>
                var r := if mode == 1 || mode == 2 then reps else 1;
                && beats == r
                && step == (old(step) + r) % 16
                && hits == old(hits) + (if inst <= 8 then seq(r, _ => inst) else [])
    {
      if mode == 0 {
        return 0;
      }
      var isSilent := mode == 3 && silenced;
      if !isSilent {
        var r := if mode == 1 || mode == 2 then reps else 1;
        var k := 0;
        while k < r
          invariant 0 <= k <= r && Valid()
          invariant step == (old(step) + k) % 16
          invariant hits == old(hits) + (if inst <= 8 then seq(k, _ => inst) else [])
        {
          if step >= 16 {
            break;
          }
          if inst <= 8 {
            hits := hits + [inst];
          }
          step := (step + 1) % 16;
          k := k + 1;
        }
        beats := k;
      } else {
        step := (step + 1) % 16;
        beats := 1;
      }
    }
  }
}
