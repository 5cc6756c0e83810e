/** The generative field's state: 64 cell agents, each a clocked FM voice at
    one pad, and the main loop that toggles them from the grid, re-tunes
    outdated ones one at a time and migrates rhythms between cells. */
module Field {
  import opened Launchpad
  import opened FieldCore

  /** One cell of the 8x8 field. */
  class CellAgent {
    const x: int
    const y: int
    const qid: int
    const octaveOff: real
    const isEven: bool
    const noteIdx: int
    /** The cell's speed factor (computed from its distance to the quadrant's
        centre with a square root): a parameter of the model. */
    const speed: real
    /** The four speaker gains `apply_tuning` routes the carrier through. */
    const gains: seq<real>
    /** The agent's place in the field's list. */
    ghost const slot: int

    var active: bool
    var lastTick: real
    var prof: int
    var scale: int
    var root: int
    var div: int
    var interval: real
    /** The carrier's current set-up; `None` before the first activation. */
    var tuning: Option<Tuning>

    /** The cell's fixed facts: its place, quadrant and speed. */
    ghost predicate Placed()
    {
      OnGrid(x, y) && speed > 0.0 && qid == Qid(x, y) && (octaveOff, isEven, noteIdx) == QuadrantInfo(x, y)
    }

    /** An active agent sounds the tuning of its assigned snapshot. */
    ghost predicate Valid()
      reads this
    {
      && Placed()
      && 0 <= prof < |Profiles| && 0 <= scale < |Scales| && div >= 1 && interval > 0.0
      && (active ==> tuning == Some(TuningOf(prof, scale, root, x, y)))
    }

    function View(): AgentView
      reads this
    {
      AgentView(active, prof, scale, root, div)
    }

    /** The LED write `refresh_led` makes for an active agent. */
    function Clock(): Timer
      reads this
    {
      Timer(lastTick, interval)
    }

    function DimWrite(gen: Gen): LedWrite
      reads this
      requires Valid()
    {
      GridWrite(gen, x, y, AgentColour(gen, scale, noteIdx, false))
    }

    constructor(x: int, y: int, speed: real, ghost slot: int)
      requires OnGrid(x, y) && speed > 0.0
      ensures Valid()
      ensures this.x == x && this.y == y && this.speed == speed && this.slot == slot
      ensures gains == CellGains(x, y) && interval == Interval(1, speed)
      ensures View() == AgentView(false, 0, 0, 0, 1) && lastTick == 0.0 && tuning == None
    {
      this.x, this.y, this.speed, this.slot := x, y, speed, slot;
      gains := CellGains(x, y);
      qid := Qid(x, y);
      octaveOff, isEven, noteIdx := QuadrantInfo(x, y).0, QuadrantInfo(x, y).1, QuadrantInfo(x, y).2;
      active := false;
      lastTick := 0.0;
      prof, scale, root := 0, 0, 0;
      div := 1;
      IntervalSpec(1, speed);
      interval := Interval(1, speed);
      tuning := None;
    }

    /** `activate`: take the current globals, the forced division when one is
        given and non-zero (else the drawn one), re-tune and show the dim
        colour. */
    method Activate(gen: Gen, force: Option<int>, choice: int, c: FieldControls) returns (w: LedWrite)
      requires Valid() && FieldControlsOk(c)
      requires 0 <= choice < 3 && (force.Some? ==> force.value >= 0)
      modifies this
      ensures Valid()
      ensures View() == AgentView(true, c.profile, c.scale, c.root,
                                  if force.Some? && force.value != 0 then force.value else DivChoices(isEven)[choice])
      ensures interval == Interval(div, speed) && lastTick == old(lastTick)
      ensures w == DimWrite(gen)
    {
      active := true;
      prof, scale, root := c.profile, c.scale, c.root;
      div := if force.Some? && force.value != 0 then force.value else DivChoices(isEven)[choice];
      IntervalSpec(div, speed);
      interval := Interval(div, speed);
      tuning := Some(TuningOf(prof, scale, root, x, y));
      w := DimWrite(gen);
    }

    /** `deactivate`: stop sounding and turn the pad off. */
    method Deactivate(gen: Gen) returns (w: LedWrite)
      requires Valid()
      modifies this
      ensures Valid()
      ensures View() == old(View()).(active := false)
      ensures lastTick == old(lastTick) && tuning == old(tuning) && interval == old(interval)
      ensures w == GridWrite(gen, x, y, (0, 0)) && !Lit((0, 0))
    {
      active := false;
      w := GridWrite(gen, x, y, (0, 0));
    }

    /** The staggered transition's re-sync: adopt the globals, re-tune and
        refresh the (dim) LED if active. */
    method Retune(gen: Gen, c: FieldControls) returns (w: seq<LedWrite>)
      requires Valid() && FieldControlsOk(c)
      modifies this
      ensures Valid()
      ensures View() == old(View()).(prof := c.profile, scale := c.scale, root := c.root)
      ensures lastTick == old(lastTick) && interval == old(interval)
      ensures tuning == Some(TuningOf(c.profile, c.scale, c.root, x, y))
      ensures w == if active then [DimWrite(gen)] else []
    {
      prof, scale, root := c.profile, c.scale, c.root;
      tuning := Some(TuningOf(prof, scale, root, x, y));
      w := if active then [DimWrite(gen)] else [];
    }

    /** `update`: an active agent fires when a full interval has passed since
        its last trigger, and lights its pad brightly. */
    method Update(gen: Gen, now: real) returns (fired: bool, w: seq<LedWrite>)
      requires Valid()
      modifies this
      ensures Valid()
      ensures fired <==> active && now - old(lastTick) >= interval
      ensures lastTick == if fired then now else old(lastTick)
      ensures View() == old(View()) && tuning == old(tuning) && interval == old(interval)
      ensures w == if fired then [GridWrite(gen, x, y, AgentColour(gen, scale, noteIdx, true))] else []
    {
      if active && now - lastTick >= interval {
        lastTick := now;
        fired := true;
        w := [GridWrite(gen, x, y, AgentColour(gen, scale, noteIdx, true))];
      } else {
        fired := false;
        w := [];
      }
    }
  }

  /** The bright write of agent `i` firing while assigned scale `s`. */
  function BrightWrite(gen: Gen, i: int, s: int): LedWrite
    requires 0 <= s < |Scales| && 0 <= i
  {
    GridWrite(gen, i % 8, i / 8, AgentColour(gen, s, QuadrantInfo(i % 8, i / 8).2, true))
  }

  /** The bright writes of the agents that fired, in list order. */
  function TriggerWrites(gen: Gen, vs: seq<AgentView>, fired: seq<bool>): seq<LedWrite>
    requires |fired| <= |vs|
    requires forall i :: 0 <= i < |vs| ==> 0 <= vs[i].scale < |Scales|
  {
    if |fired| == 0 then []
    else
      var i := |fired| - 1;
      TriggerWrites(gen, vs, fired[..i]) + (if fired[i] then [BrightWrite(gen, i, vs[i].scale)] else [])
  }

  /** The master fader's state: fading out after the power button, playing
      (stopped by power and panic), and the loop's `running` flag. */
  datatype Master = Master(fadingOut: bool, playing: bool, running: bool)

  /** When the last staggered re-sync and the last migration happened. */
  datatype Clocks = Clocks(lastTransition: real, lastMigration: real)

  /** The writes of a panic reset: every pad turned off, in list order. */
  function AllOff(gen: Gen, n: nat): seq<LedWrite>
    decreases n
  {
    if n == 0 then [] else AllOff(gen, n - 1) + [GridWrite(gen, (n - 1) % 8, (n - 1) / 8, (0, 0))]
  }

  /** The main loop's state. */
  class Field {
    const gen: Gen
    const agents: seq<CellAgent>
    var ctl: FieldControls
    var master: Master
    var clocks: Clocks
    /** `rev_inputs`: the agent whose carrier feeds each quadrant's reverb,
        `None` for the zero signal. */
    var sends: seq<Option<int>>
    var ledLog: seq<LedWrite>

    /** The 64 agents, agent `i` at column `i % 8` and row `i / 8` (so each
        is its own object). */
    ghost predicate AgentsOk()
      reads agents
    {
      && |agents| == Agents
      && (forall i :: 0 <= i < Agents ==> agents[i].slot == i && agents[i].x == i % 8 && agents[i].y == i / 8 && agents[i].Valid())
    }

    ghost predicate Valid()
      reads this, agents
    {
      AgentsOk() && FieldControlsOk(ctl) && |sends| == 4
    }

    function Views(): (vs: seq<AgentView>)
      reads agents
      requires |agents| == Agents
      ensures |vs| == Agents
    {
      seq(Agents, i requires 0 <= i < Agents reads agents => agents[i].View())
    }

    /** Every agent's clock, in list order. */
    function Timers(): (ts: seq<Timer>)
      reads agents
      requires |agents| == Agents
      ensures |ts| == Agents
    {
      seq(Agents, i requires 0 <= i < Agents reads agents => agents[i].Clock())
    }

    /** A valid field's state has the snapshot's shape. */
    lemma StateOk()
      requires Valid()
      ensures SnapOk(State())
    {
    }

    /** Every agent's speed factor, in list order. */
    function Speeds(): (sp: seq<real>)
      requires |agents| == Agents
      ensures |sp| == Agents
    {
      seq(Agents, i requires 0 <= i < Agents => agents[i].speed)
    }

    /** The loop's whole state as a value. */
    function State(): (s: Snap)
      reads this, agents
      requires |agents| == Agents
    {
      Snap(Views(), Timers(), ctl, master, clocks, sends, ledLog)
    }

    constructor(gen: Gen, speeds: seq<real>)
      requires |speeds| == Agents && forall i :: 0 <= i < Agents ==> speeds[i] > 0.0
      ensures Valid()
      ensures this.gen == gen && ctl == InitialControls
      ensures forall i :: 0 <= i < Agents ==> agents[i].speed == speeds[i]
      ensures forall i :: 0 <= i < Agents ==> Views()[i] == AgentView(false, 0, 0, 0, 1)
      ensures master == Master(false, true, true) && clocks == Clocks(0.0, 0.0)
      ensures sends == [None, None, None, None] && ledLog == []
    {
      var made: seq<CellAgent> := [];
      for i := 0 to Agents
        invariant |made| == i
        invariant forall k :: 0 <= k < i ==> made[k].slot == k && made[k].x == k % 8 && made[k].y == k / 8 && made[k].Valid()
        invariant forall k :: 0 <= k < i ==> made[k].speed == speeds[k] && made[k].View() == AgentView(false, 0, 0, 0, 1)
      {
        var a := new CellAgent(i % 8, i / 8, speeds[i], i);
        made := made + [a];
      }
      this.gen := gen;
      agents := made;
      ctl := InitialControls;
      master := Master(false, true, true);
      clocks := Clocks(0.0, 0.0);
      sends := [None, None, None, None];
      ledLog := [];
    }

    /** `deactivate` on agent `i`: it goes quiet, its pad goes dark and its
        quadrant's reverb input falls silent. */
    method Quiet(i: int)
      requires Valid() && 0 <= i < Agents
      modifies this, agents[i]
      ensures Valid()
      ensures Views() == old(Views())[i := old(Views())[i].(active := false)]
      ensures sends == old(sends)[agents[i].qid := None] && agents[i].qid == Qid(i % 8, i / 8)
      ensures ledLog == old(ledLog) + [GridWrite(gen, i % 8, i / 8, (0, 0))]
      ensures ctl == old(ctl) && master == old(master) && clocks == old(clocks)
      ensures Timers() == old(Timers())
      ensures Quieted(gen, old(State()), State(), i)
    {
      var ag := agents[i];
      var w := ag.Deactivate(gen);
      sends := sends[ag.qid := None];
      ledLog := ledLog + [w];
      forall j | 0 <= j < Agents && j != i
        ensures agents[j].Valid() && agents[j].View() == old(agents[j].View()) && agents[j].Clock() == old(agents[j].Clock())
      {
      }
      assert Views() == old(Views())[i := ag.View()];
      assert Timers() == old(Timers());
    }

    /** `activate` on agent `i` with the current globals: its carrier feeds
        its quadrant's reverb and its pad shows the dim colour. */
    method Wake(i: int, force: Option<int>, choice: int)
      requires Valid() && 0 <= i < Agents
      requires 0 <= choice < 3 && (force.Some? ==> force.value >= 0)
      modifies this, agents[i]
      ensures Valid()
      ensures Views() == old(Views())[i := AgentView(true, ctl.profile, ctl.scale, ctl.root,
                                        if force.Some? && force.value != 0 then force.value else DivChoices(i % 8 < 4)[choice])]
      ensures sends == old(sends)[agents[i].qid := Some(i)]
      ensures ledLog == old(ledLog) + [agents[i].DimWrite(gen)]
      ensures ctl == old(ctl) && master == old(master) && clocks == old(clocks)
      ensures Timers() == old(Timers())[i := Timer(old(Timers())[i].lastTick, Interval(Views()[i].div, agents[i].speed))]
      ensures Woken(gen, Speeds(), old(State()), State(), i, Views()[i].div)
    {
      var ag := agents[i];
      var w := ag.Activate(gen, force, choice, ctl);
      sends := sends[ag.qid := Some(i)];
      ledLog := ledLog + [w];
      forall j | 0 <= j < Agents && j != i
        ensures agents[j].Valid() && agents[j].View() == old(agents[j].View()) && agents[j].Clock() == old(agents[j].Clock())
      {
      }
      assert Views() == old(Views())[i := ag.View()];
      assert Timers() == old(Timers())[i := ag.Clock()];
    }

    /** A grid press on agent `i`: an inactive agent wakes with a division
        drawn with `draw`, an active one goes quiet. */
    method Toggle(i: int, draw: nat)
      requires Valid() && 0 <= i < Agents
      modifies this, agents[i]
      ensures Valid()
      ensures Views() == old(Views())[i := ToggledView(old(Views())[i], ctl, i % 8 < 4, draw)]
      ensures sends == old(sends)[agents[i].qid := if old(Views())[i].active then None else Some(i)]
      ensures ctl == old(ctl) && master == old(master) && clocks == old(clocks)
      ensures Toggled(gen, Speeds(), old(State()), State(), i, draw)
    {
      if !agents[i].active {
        Wake(i, None, draw % 3);
      } else {
        Quiet(i);
      }
    }

    /** One button event: power fades out and stops the master fader (its
        timer, `PowerOffTimer`, ends the loop), panic stops it (its timer is
        `PanicTimer`), a grid press toggles the agent at index `y * 8 + x`,
        any other press changes the controls. */
    method HandleEvent(bid: int, state: int, draw: nat)
      requires Valid() && bid >= 0
      modifies this, agents
      ensures Valid()
      ensures var a := DecodeFieldEvent(gen, bid, state);
              && (a == PowerOff ==> master == old(master).(fadingOut := true, playing := false) && ctl == old(ctl))
              && (a == Panic ==> master == old(master).(playing := false) && ctl == old(ctl))
              && (a != PowerOff && a != Panic ==> master == old(master) && ctl == MutateField(old(ctl), a))
              && (!a.Toggle? ==> Views() == old(Views()) && sends == old(sends) && ledLog == old(ledLog))
              && (a.Toggle? ==>
                    var i := a.y * 8 + a.x;
                    0 <= i < Agents && OnGrid(a.x, a.y) && GridId(gen, a.x, a.y) == bid
                    && Views() == old(Views())[i := ToggledView(old(Views())[i], ctl, a.x < 4, draw)])
      ensures clocks == old(clocks)
      ensures EventStep(gen, Speeds(), old(State()), State(), bid, state, draw)
    {
      var a := DecodeFieldEvent(gen, bid, state);
      if a.Toggle? {
        DecodeGridPress(gen, 0, 0, bid, state);
        CellIndex(a.x, a.y, 0);
        var i := a.y * 8 + a.x;
        assert (i % 8 < 4) == (a.x < 4);
        Toggle(i, draw);
        assert Views() == old(Views())[i := ToggledView(old(Views())[i], ctl, a.x < 4, draw)];
      } else {
        Control(a);
        assert !a.Toggle?;
      }
    }

    /** A control-button action: the power and panic buttons start their
        fades, everything else updates the globals. */
    method Control(a: FieldAction)
      requires Valid() && !a.Toggle?
      modifies this`master, this`ctl
      ensures Valid()
      ensures a == PowerOff ==> master == old(master).(fadingOut := true, playing := false) && ctl == old(ctl)
      ensures a == Panic ==> master == old(master).(playing := false) && ctl == old(ctl)
      ensures a != PowerOff && a != Panic ==> master == old(master) && ctl == MutateField(old(ctl), a)
      ensures State() == old(State()).(master := master, ctl := ctl)
    {
      if a == PowerOff {
        master := master.(fadingOut := true, playing := false);
      } else if a == Panic {
        master := master.(playing := false);
      } else {
        ctl := MutateField(ctl, a);
      }
    }

    /** The power button's timer: the main loop stops. */
    method PowerOffTimer()
      modifies this
      ensures master == old(master).(running := false)
      ensures ctl == old(ctl) && clocks == old(clocks) && sends == old(sends) && ledLog == old(ledLog)
    {
      master := master.(running := false);
    }

    /** The panic button's timer: every agent goes quiet (all four reverb
        inputs fall silent, every pad goes dark) and the fader plays again. */
    method PanicTimer()
      requires Valid()
      modifies this, agents
      ensures Valid()
      ensures Views() == Silenced(old(Views()), Agents) && CountActive(Views()) == 0
      ensures sends == [None, None, None, None] && ledLog == old(ledLog) + AllOff(gen, Agents)
      ensures master == old(master).(playing := true) && ctl == old(ctl) && clocks == old(clocks)
    {
      ghost var views, log := Views(), ledLog;
      master := master.(playing := true);
      for i := 0 to Agents
        invariant Valid() && ctl == old(ctl) && clocks == old(clocks) && master == old(master).(playing := true)
        invariant Views() == Silenced(views, i)
        invariant ledLog == log + AllOff(gen, i)
        invariant QuietUpTo(sends, i)
      {
        ghost var before := sends;
        Quiet(i);
        QuietStep(before, i);
        SilencedStep(views, i);
        AllOffStep(gen, log, i);
      }
      FourSilent(sends);
      SilencedAll(views);
    }

    /** Re-syncs agent `i` to the globals. */
    method Resync(i: int)
      requires Valid() && 0 <= i < Agents
      modifies this, agents[i]
      ensures Valid()
      ensures Views() == old(Views())[i := old(Views())[i].(prof := ctl.profile, scale := ctl.scale, root := ctl.root)]
      ensures sends == old(sends)[agents[i].qid := Some(i)]
      ensures ledLog == old(ledLog) + (if agents[i].active then [agents[i].DimWrite(gen)] else [])
      ensures ctl == old(ctl) && master == old(master) && clocks == old(clocks)
      ensures Timers() == old(Timers())
      ensures Resynced(gen, old(State()), State(), i)
    {
      var ag := agents[i];
      var w := ag.Retune(gen, ctl);
      sends := sends[ag.qid := Some(i)];
      ledLog := ledLog + w;
      forall j | 0 <= j < Agents && j != i
        ensures agents[j].Valid() && agents[j].View() == old(agents[j].View()) && agents[j].Clock() == old(agents[j].Clock())
      {
      }
      assert Views() == old(Views())[i := ag.View()];
      assert Timers() == old(Timers());
    }

    /** The staggered transition: when some active agent is outdated and more
        than 0.1 s passed since the last re-sync, one of them (picked by
        `draw`) adopts the globals; the outdated count drops by one. */
    method Transition(now: real, draw: nat) returns (lucky: Option<int>)
      requires Valid()
      modifies this, agents
      ensures Valid()
      ensures lucky.Some? <==> |Select(old(Views()), OutdatedOnes(ctl))| > 0 && now - old(clocks).lastTransition > 0.1
      ensures lucky.None? ==> Views() == old(Views()) && clocks == old(clocks)
      ensures lucky.Some? ==>
                var i := lucky.value;
                && 0 <= i < Agents && Outdated(old(Views())[i], ctl)
                && Views() == old(Views())[i := old(Views())[i].(prof := ctl.profile, scale := ctl.scale, root := ctl.root)]
                && |Select(Views(), OutdatedOnes(ctl))| == |Select(old(Views()), OutdatedOnes(ctl))| - 1
                && clocks == old(clocks).(lastTransition := now)
      ensures ctl == old(ctl) && master == old(master)
      ensures TransitionStep(gen, old(State()), State(), now, lucky)
    {
      lucky := None;
      ghost var before := State();
      StateOk();
      if now - clocks.lastTransition > 0.1 {
        var vs := Views();
        lucky := TransitionPick(vs, ctl, draw);
        if lucky.Some? {
          clocks := clocks.(lastTransition := now);
          assert State() == before.(clocks := before.clocks.(lastTransition := now));
          Resync(lucky.value);
          TransitionShrinksOutdated(vs, lucky.value, ctl);
        }
      }
    }

    /** Moves agent `src`'s rhythm to the empty cell `dst`. */
    method Move(src: int, dst: int)
      requires Valid() && 0 <= src < Agents && 0 <= dst < Agents
      requires agents[src].active && !agents[dst].active
      modifies this, agents[src], agents[dst]
      ensures Valid()
      ensures Views() == Migrated(old(Views()), src, dst, ctl)
      ensures sends == old(sends)[agents[src].qid := None][agents[dst].qid := Some(dst)]
      ensures ledLog == old(ledLog) + [GridWrite(gen, src % 8, src / 8, (0, 0)), agents[dst].DimWrite(gen)]
      ensures ctl == old(ctl) && master == old(master) && clocks == old(clocks)
      ensures Moved(gen, Speeds(), old(State()), State(), src, dst)
    {
      var div := agents[src].div;
      Quiet(src);
      ghost var mid := State();
      Wake(dst, Some(div), 0);
      QuietThenWake(gen, Speeds(), old(State()), mid, State(), src, dst);
    }

    /** Migration: while enabled, every half bar one active agent (picked by
        `srcDraw`) moves its division to an empty cell (picked by `dstDraw`),
        which wakes with the current globals; the number of active agents
        stays the same. */
    method Migrate(now: real, srcDraw: nat, dstDraw: nat) returns (moved: Option<(int, int)>)
      requires Valid()
      modifies this, agents
      ensures Valid()
      ensures var due := ctl.migration && now - old(clocks).lastMigration > BeatTime * 0.5;
              && clocks == (if due then old(clocks).(lastMigration := now) else old(clocks))
              && (moved.Some? <==> due && 0 < CountActive(old(Views())) < Agents)
      ensures moved.None? ==> Views() == old(Views())
      ensures moved.Some? ==>
                var (src, dst) := moved.value;
                && 0 <= src < Agents && 0 <= dst < Agents
                && old(Views())[src].active && !old(Views())[dst].active
                && Views() == Migrated(old(Views()), src, dst, ctl)
                && CountActive(Views()) == CountActive(old(Views()))
      ensures ctl == old(ctl) && master == old(master)
      ensures MigrationStep(gen, Speeds(), old(State()), State(), now, moved)
    {
      moved := None;
      ghost var before := State();
      StateOk();
      if ctl.migration && now - clocks.lastMigration > BeatTime * 0.5 {
        clocks := clocks.(lastMigration := now);
        assert State() == before.(clocks := before.clocks.(lastMigration := now));
        ghost var stamped := State();
        var vs := Views();
        moved := MigrationPick(vs, srcDraw, dstDraw);
        if moved.Some? {
          Move(moved.value.0, moved.value.1);
          MigrationKeepsCount(vs, moved.value.0, moved.value.1, ctl);
          assert Moved(gen, Speeds(), stamped, State(), moved.value.0, moved.value.1);
        }
      }
      assert MigrationStep(gen, Speeds(), before, State(), now, moved);
    }

    /** Agent `i`'s clock check. */
    method Tick(i: int, now: real) returns (fired: bool)
      requires Valid() && 0 <= i < Agents
      modifies this, agents[i]
      ensures Valid() && Views() == old(Views())
      ensures fired == Due(old(Views())[i], old(Timers())[i], now)
      ensures Timers() == old(Timers())[i := if fired then old(Timers())[i].(lastTick := now) else old(Timers())[i]]
      ensures ledLog == old(ledLog) + (if fired then [BrightWrite(gen, i, Views()[i].scale)] else [])
      ensures ctl == old(ctl) && master == old(master) && clocks == old(clocks) && sends == old(sends)
    {
      var ag := agents[i];
      var w;
      fired, w := ag.Update(gen, now);
      ledLog := ledLog + w;
      forall j | 0 <= j < Agents && j != i
        ensures agents[j].Valid() && agents[j].View() == old(agents[j].View()) && agents[j].Clock() == old(agents[j].Clock())
      {
      }
      assert Views() == old(Views());
      assert Timers() == old(Timers())[i := ag.Clock()];
    }

    /** The end of each loop pass: every agent checks its clock, in list
        order. */
    method UpdateAll(now: real) returns (fired: seq<bool>)
      requires Valid()
      modifies this, agents
      ensures Valid() && Views() == old(Views())
      ensures fired == DueList(old(Views()), old(Timers()), now, Agents)
      ensures Timers() == Ticked(old(Views()), old(Timers()), now, Agents)
      ensures ledLog == old(ledLog) + TriggerWrites(gen, Views(), fired)
      ensures ctl == old(ctl) && master == old(master) && clocks == old(clocks) && sends == old(sends)
      ensures ClockStep(gen, old(State()), State(), now, fired)
    {
      fired := [];
      for i := 0 to Agents
        invariant Valid() && Views() == old(Views())
        invariant ctl == old(ctl) && master == old(master) && clocks == old(clocks) && sends == old(sends)
        invariant fired == DueList(old(Views()), old(Timers()), now, i)
        invariant Timers() == Ticked(old(Views()), old(Timers()), now, i)
        invariant ledLog == old(ledLog) + TriggerWrites(gen, Views(), fired)
      {
        var f := Tick(i, now);
        DueStep(old(Views()), old(Timers()), now, i);
        TriggerStep(gen, Views(), old(ledLog), fired, f);
        fired := fired + [f];
      }
    }

    /** One pass of the main loop: the event (if any), the staggered
        transition, migration, then every agent's clock. */
    method Step(ev: Option<(int, int)>, now: real, draw: nat, pick: nat, srcDraw: nat, dstDraw: nat)
      returns (lucky: Option<int>, moved: Option<(int, int)>, fired: seq<bool>,
               ghost afterEvent: Snap, ghost afterTransition: Snap, ghost afterMigration: Snap)
      requires Valid() && (ev.Some? ==> ev.value.0 >= 0)
      modifies this, agents
      ensures Valid() && |fired| == Agents
      ensures ctl == (if ev.Some? then MutateField(old(ctl), DecodeFieldEvent(gen, ev.value.0, ev.value.1)) else old(ctl))
              || (ev.Some? && DecodeFieldEvent(gen, ev.value.0, ev.value.1) in {PowerOff, Panic} && ctl == old(ctl))
      ensures ev.None? ==> afterEvent == old(State())
      ensures ev.Some? ==> EventStep(gen, Speeds(), old(State()), afterEvent, ev.value.0, ev.value.1, draw)
      ensures TransitionStep(gen, afterEvent, afterTransition, now, lucky)
      ensures MigrationStep(gen, Speeds(), afterTransition, afterMigration, now, moved)
      ensures ClockStep(gen, afterMigration, State(), now, fired)
    {
      if ev.Some? {
        HandleEvent(ev.value.0, ev.value.1, draw);
      }
      afterEvent := State();
      lucky := Transition(now, pick);
      afterTransition := State();
      moved := Migrate(now, srcDraw, dstDraw);
      afterMigration := State();
      fired := UpdateAll(now);
    }
  }

  /** One more agent checked extends the pass's LED log by its flash, if it
      fired. */
  lemma TriggerStep(gen: Gen, vs: seq<AgentView>, log: seq<LedWrite>, fired: seq<bool>, f: bool)
    requires |fired| < |vs|
    requires forall i :: 0 <= i < |vs| ==> 0 <= vs[i].scale < |Scales|
    ensures log + TriggerWrites(gen, vs, fired) + (if f then [BrightWrite(gen, |fired|, vs[|fired|].scale)] else [])
            == log + TriggerWrites(gen, vs, fired + [f])
  {
    assert (fired + [f])[..|fired|] == fired;
  }

  /** One more dark pad extends the panic's LED log by that pad. */
  lemma AllOffStep(gen: Gen, log: seq<LedWrite>, i: nat)
    ensures log + AllOff(gen, i) + [GridWrite(gen, i % 8, i / 8, (0, 0))] == log + AllOff(gen, i + 1)
  {
  }

  /** The reverb inputs of the quadrants whose first agent (0, 4, 32, 36)
      lies before `i` are silent. */
  ghost predicate QuietUpTo(s: seq<Option<int>>, i: int)
  {
    && |s| == 4
    && (i > 0 ==> s[0] == None) && (i > 4 ==> s[1] == None)
    && (i > 32 ==> s[2] == None) && (i > 36 ==> s[3] == None)
  }

  /** Silencing agent `i`'s quadrant keeps the earlier quadrants silent and
      adds its own when `i` is the quadrant's first agent. */
  lemma QuietStep(s: seq<Option<int>>, i: int)
    requires QuietUpTo(s, i) && 0 <= i < Agents
    ensures QuietUpTo(s[Qid(i % 8, i / 8) := None], i + 1)
  {
    if i == 4 {
      assert Qid(4, 0) == 1;
    } else if i == 32 {
      assert Qid(0, 4) == 2;
    } else if i == 36 {
      assert Qid(4, 4) == 3;
    }
  }

  /** Four silent reverb inputs. */
  lemma FourSilent(s: seq<Option<int>>)
    requires |s| == 4 && s[0] == None && s[1] == None && s[2] == None && s[3] == None
    ensures s == [None, None, None, None]
  {
  }

  /** The main loop's state as a value: every agent's snapshot and clock,
      the globals, the master fader, the loop's own clocks, the reverb inputs
      and the LED writes so far. */
  datatype Snap = Snap(views: seq<AgentView>, timers: seq<Timer>, ctl: FieldControls, master: Master,
                       clocks: Clocks, sends: seq<Option<int>>, log: seq<LedWrite>)

  /** The shape every state of a valid field has. */
  ghost predicate SnapOk(s: Snap)
  {
    && |s.views| == |s.timers| == Agents && |s.sends| == 4 && FieldControlsOk(s.ctl)
    && (forall i :: 0 <= i < Agents ==> 0 <= s.views[i].scale < |Scales|)
  }

  /** The dim write `refresh_led` makes for agent `i` under scale `sc`. */
  function DimWriteOf(gen: Gen, i: int, sc: int): LedWrite
    requires 0 <= sc < |Scales| && 0 <= i
  {
    GridWrite(gen, i % 8, i / 8, AgentColour(gen, sc, QuadrantInfo(i % 8, i / 8).2, false))
  }

  /** A clock reset to the period of division `div` at speed `speed`. */
  ghost predicate Retimed(t: Timer, div: int, speed: real)
  {
    div >= 1 && speed > 0.0 && t.interval == Interval(div, speed)
  }

  /** `deactivate` on agent `i`: only its snapshot's flag, its quadrant's
      reverb input and one dark pad change. */
  ghost predicate Quieted(gen: Gen, s: Snap, s': Snap, i: int)
  {
    && SnapOk(s) && 0 <= i < Agents
    && s'.views == s.views[i := s.views[i].(active := false)]
    && s'.timers == s.timers
    && s'.sends == s.sends[Qid(i % 8, i / 8) := None]
    && s'.log == s.log + [GridWrite(gen, i % 8, i / 8, (0, 0))]
    && s'.ctl == s.ctl && s'.master == s.master && s'.clocks == s.clocks
  }

  /** `activate` on agent `i` with division `div`: it takes the globals, its
      clock keeps its last tick and takes the division's period, its carrier
      feeds its quadrant's reverb and its pad shows the dim colour. */
  ghost predicate Woken(gen: Gen, speeds: seq<real>, s: Snap, s': Snap, i: int, div: int)
  {
    && SnapOk(s) && 0 <= i < Agents && |speeds| == Agents
    && s'.views == s.views[i := AgentView(true, s.ctl.profile, s.ctl.scale, s.ctl.root, div)]
    && |s'.timers| == Agents && s'.timers == s.timers[i := s'.timers[i]]
    && s'.timers[i].lastTick == s.timers[i].lastTick && Retimed(s'.timers[i], div, speeds[i])
    && s'.sends == s.sends[Qid(i % 8, i / 8) := Some(i)]
    && s'.log == s.log + [DimWriteOf(gen, i, s.ctl.scale)]
    && s'.ctl == s.ctl && s'.master == s.master && s'.clocks == s.clocks
  }

  /** A grid press on agent `i`: an active agent goes quiet, an inactive one
      wakes with the division `draw` picks for its half of the grid. */
  ghost predicate Toggled(gen: Gen, speeds: seq<real>, s: Snap, s': Snap, i: int, draw: nat)
  {
    && 0 <= i < |s.views|
    && if s.views[i].active then Quieted(gen, s, s', i)
       else Woken(gen, speeds, s, s', i, DivChoices(i % 8 < 4)[draw % 3])
  }

  /** One button event, as the main loop's dispatch handles it. */
  ghost predicate EventStep(gen: Gen, speeds: seq<real>, s: Snap, s': Snap, bid: int, state: int, draw: nat)
  {
    var a := DecodeFieldEvent(gen, bid, state);
    if a == PowerOff then s' == s.(master := s.master.(fadingOut := true, playing := false))
    else if a == Panic then s' == s.(master := s.master.(playing := false))
    else if a.Toggle? then
      && OnGrid(a.x, a.y) && GridId(gen, a.x, a.y) == bid
      && Toggled(gen, speeds, s, s', a.y * 8 + a.x, draw)
    else s' == s.(ctl := MutateField(s.ctl, a))
  }

  /** `apply_tuning` and `refresh_led` after agent `i` adopts the globals:
      its carrier feeds its quadrant's reverb again and an active agent's pad
      shows its new dim colour; its clock is untouched. */
  ghost predicate Resynced(gen: Gen, s: Snap, s': Snap, i: int)
  {
    && SnapOk(s) && 0 <= i < Agents
    && s'.views == s.views[i := s.views[i].(prof := s.ctl.profile, scale := s.ctl.scale, root := s.ctl.root)]
    && s'.timers == s.timers
    && s'.sends == s.sends[Qid(i % 8, i / 8) := Some(i)]
    && s'.log == s.log + (if s.views[i].active then [DimWriteOf(gen, i, s.ctl.scale)] else [])
    && s'.ctl == s.ctl && s'.master == s.master && s'.clocks == s.clocks
  }

  /** The staggered transition: when some active agent is outdated and more
      than 0.1 s passed, the loop stamps the transition clock and the agent
      `lucky` (an outdated one) re-syncs; otherwise nothing changes. */
  ghost predicate TransitionStep(gen: Gen, s: Snap, s': Snap, now: real, lucky: Option<int>)
  {
    && SnapOk(s)
    && (lucky.Some? <==> |Select(s.views, OutdatedOnes(s.ctl))| > 0 && now - s.clocks.lastTransition > 0.1)
    && (lucky.None? ==> s' == s)
    && (lucky.Some? ==>
          && 0 <= lucky.value < Agents && Outdated(s.views[lucky.value], s.ctl)
          && Resynced(gen, s.(clocks := s.clocks.(lastTransition := now)), s', lucky.value))
  }

  /** Agent `src` goes quiet and the empty cell `dst` wakes with its
      division. */
  ghost predicate Moved(gen: Gen, speeds: seq<real>, s: Snap, s': Snap, src: int, dst: int)
  {
    && SnapOk(s) && 0 <= src < Agents && 0 <= dst < Agents && src != dst && |speeds| == Agents
    && s'.views == Migrated(s.views, src, dst, s.ctl)
    && |s'.timers| == Agents && s'.timers == s.timers[dst := s'.timers[dst]]
    && s'.timers[dst].lastTick == s.timers[dst].lastTick && Retimed(s'.timers[dst], s.views[src].div, speeds[dst])
    && s'.sends == s.sends[Qid(src % 8, src / 8) := None][Qid(dst % 8, dst / 8) := Some(dst)]
    && s'.log == s.log + [GridWrite(gen, src % 8, src / 8, (0, 0)), DimWriteOf(gen, dst, s.ctl.scale)]
    && s'.ctl == s.ctl && s'.master == s.master && s'.clocks == s.clocks
  }

  /** Migration: when enabled and more than half a beat passed, the loop
      stamps the migration clock and, if there is both an active agent and an
      empty cell, one active agent moves to an empty cell. */
  ghost predicate MigrationStep(gen: Gen, speeds: seq<real>, s: Snap, s': Snap, now: real, moved: Option<(int, int)>)
  {
    var due := s.ctl.migration && now - s.clocks.lastMigration > BeatTime * 0.5;
    var t := if due then s.(clocks := s.clocks.(lastMigration := now)) else s;
    && SnapOk(s)
    && (moved.Some? <==> due && 0 < CountActive(s.views) < Agents)
    && (moved.None? ==> s' == t)
    && (moved.Some? ==>
          && 0 <= moved.value.0 < Agents && 0 <= moved.value.1 < Agents
          && s.views[moved.value.0].active && !s.views[moved.value.1].active
          && Moved(gen, speeds, t, s', moved.value.0, moved.value.1))
  }

  /** Every agent checks its clock in list order: the due ones fire, stamp
      their clocks and flash their pads; nothing else changes. */
  ghost predicate ClockStep(gen: Gen, s: Snap, s': Snap, now: real, fired: seq<bool>)
  {
    && SnapOk(s)
    && fired == DueList(s.views, s.timers, now, Agents)
    && s' == s.(timers := Ticked(s.views, s.timers, now, Agents), log := s.log + TriggerWrites(gen, s.views, fired))
  }

  /** Quieting `src` and then waking `dst` with `src`'s division is a move. */
  lemma QuietThenWake(gen: Gen, speeds: seq<real>, s: Snap, mid: Snap, s': Snap, src: int, dst: int)
    requires Quieted(gen, s, mid, src) && Woken(gen, speeds, mid, s', dst, s.views[src].div)
    requires src != dst
    ensures Moved(gen, speeds, s, s', src, dst)
  {
  }

  /** What a grid press does to an agent's snapshot. */
  function ToggledView(v: AgentView, c: FieldControls, even: bool, draw: nat): AgentView
  {
    if v.active then v.(active := false)
    else AgentView(true, c.profile, c.scale, c.root, DivChoices(even)[draw % 3])
  }
}
