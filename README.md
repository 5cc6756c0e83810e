# Launchpad quadraphonic instruments: a Dafny model

Four Python scripts turn a Novation Launchpad (the Mk1/S/Mini or the Mk2) and four speakers
into instruments. Each pad of the 8x8 grid is a position in the square between the speakers.

- **Harmonic grid synth** (`synth_harms.py`). Each pad plays a pitch of the current key, scale
  and octave, snapped to the nearest scale degree. Notes go through a 16-voice round-robin
  pool. The script also has an LED cache, effect and drum modes, an arpeggiator and a
  16-step drum machine.
- **Generative field** (`stochastic_field.py`). Each pad is a clocked FM agent that the grid
  switches on and off. Agents are re-tuned one at a time when the globals change, and their
  rhythms migrate to empty cells.
- **Psychoacoustics tester** (`psychoa_test.py`). A pink-noise and illusion scan cursor,
  mutually exclusive Shepard and Risset directions, Doppler and binaural cycles, a manual sine
  mix, solos and a master volume.
- **Speaker tester** (`test_speakers.py`). A pink-noise grid scan that a held solo pauses, a
  manual sine mix, solos and a master volume.

The model follows each script's control logic, apart from what "Left out" lists. It uses
real numbers for gains, volumes and scale degrees, and unbounded integers for ids and counters. The module-level globals of each
script become fields of a class. One pass of a loop becomes one step method, with the time
`now`, the button event and the random draws as parameters. LED writes are appended to a log
of `LedWrite` records, the id plus the colour components handed to the driver. In the synth,
the class invariant ties this log to the LED cache: the driver's last write to every cached
pad is that pad's cached tuple.

Modules:

| module | file | contents |
|---|---|---|
| `Launchpad` | launchpad.dfy | the two hardware generations, grid ids and their decoding |
| `Pan` | pan.dfy | the bilinear four-speaker gains |
| `Modular` | modular.dfy | facts about `%` used for wrapping |
| `SortedSets` | sorted_set.dfy | the ascending enumeration of the held pitches |
| `SynthCore` | synth_core.dfy | the synth's pure parts: scales, pitch map, quantiser, pad colours, ids, random scale |
| `SynthControls` | synth_controls.dfy | the synth's controllers, the listener's decoding and the mutators |
| `Synth` | synth.dfy | the synth's voice pool, LED cache, listener step, arpeggiator and drum machine |
| `FieldCore` | field_core.dfy | the field's pure rules: quadrants, bands, tables, controls, decoding, selection over snapshots |
| `Field` | field.dfy | the field's `CellAgent` and `Field` classes and the main-loop steps |
| `Testers` | testers.dfy | what the two testers share: gains, the loudest-of manual mix, side index, LED writes, volume colour |
| `Psycho` | psycho.dfy | the psychoacoustics tester |
| `Speakers` | speakers.dfy | the speaker tester |

## Model

| member | source | states |
|---|---|---|
| Launchpad.GridIdRoundTrip | psychoa_test.py:137-148 | decoding the raw id of any grid cell gives that cell back, on both generations (the same formulas are at stochastic_field.py:140-150 and test_speakers.py:88-107) |
| Launchpad.XYFromRawInverse | psychoa_test.py:141-148 | every id that decodes to a cell is that cell's id, and from a non-negative id the cell is on the 8x8 grid (the same decode is at stochastic_field.py:143-150 and test_speakers.py:95-107) |
| Launchpad.GridIdInjective | psychoa_test.py:137-139 | two different cells never share a raw id (the same formula is at test_speakers.py:88-93) |
| Launchpad.ControlsAreNotGrid | psychoa_test.py:34-44 | no top-row or side-column control id decodes as a grid pad (control ids of test_speakers.py:25-37 too; decode at psychoa_test.py:141-148) |
| SortedSets.SetMin | synth_harms.py:329 | the least held pitch is held and below every other |
| SortedSets.SortedSeq | synth_harms.py:329 | `sorted(list(held_pitches))` holds each held pitch exactly once, in strictly ascending order |
| SortedSets.SortedSeqUnique | synth_harms.py:329 | any strictly ascending sequence of exactly the held pitches is that enumeration |
| Pan.Bilinear | synth_harms.py:197-199 | four channel weights that always add up to one (the same weights are at test_speakers.py:75-80) |
| Pan.BilinearInUnit | synth_harms.py:197-199 | inside the unit square each weight lies in [0, 1] |
| Pan.BilinearCorner | synth_harms.py:197-199 | at a corner of the unit square that corner's channel gets everything |
| Pan.BilinearNoCornerNoOneHot | synth_harms.py:197-199 | off the corners no channel gets everything |
| SynthCore.FixedScalesStartAtRoot | synth_harms.py:60-78 | all 26 fixed scales begin at the root degree 0 and have at least five degrees |
| SynthCore.QuadGainsPartition | synth_harms.py:197-199 | on the grid the four pad gains lie in [0, 1] and sum to 1 |
| SynthCore.QuadGainsCorners | synth_harms.py:197-199 | each corner pad feeds exactly one channel (bottom-left 2, bottom-right 3, top-left 0, top-right 1) |
| SynthCore.PitchRange | synth_harms.py:201-202 | with key, octave shift and pad in range the pad pitch lies in 0..125 |
| SynthCore.ClosestIndex | synth_harms.py:209 | the index `min(scale, key=...)` picks is the first degree closest to the pitch class |
| SynthCore.QuantizeSpec | synth_harms.py:296-302 | the pitch snaps exactly when some degree lies within 0.5 of its pitch class; a snapped pitch lands on that octave's copy of the closest degree, within 0.5 of the pad pitch; an unsnapped pitch is left as it is (the pad colour uses the same match at synth_harms.py:207-210) |
| SynthCore.PadColourMeaning | synth_harms.py:204-213 | white exactly for a lit pad; an unlit pad is coloured exactly when its pitch snaps; an unlit snapped pad is red exactly when the tuned pitch is within 0.1 of a copy of the key |
| SynthCore.Components | synth_harms.py:206-213 | an Mk2 colour has three components, an Mk1 colour two or three (off is always three) |
| SynthCore.ComponentsInjective | synth_harms.py:221 | two cached colour tuples are equal exactly when the colours are |
| SynthCore.PadIdRoundTrip | synth_harms.py:216-217 | both pad decodes invert the pad-id encoding on both generations, and the logical row is the grid row counted from the bottom (decodes at synth_harms.py:293-294 and 447-450) |
| SynthCore.GridFromRawInverse | synth_harms.py:447-450 | every id the listener accepts as a pad is the id of the pad it decodes to |
| SynthCore.PadIdInjective | synth_harms.py:216-217 | two different pads never share an id |
| SynthCore.SideIdxDecodesSideButtons | synth_harms.py:41-44 | the side-button ids decode to their side index, the power button is side button 6 on both generations, and no pad has a side index (decode at synth_harms.py:418) |
| SynthCore.TopIsNotSideOrPad | synth_harms.py:398-418 | a top-row press has no side index in 0..7 and is not a pad |
| SynthCore.Insert | synth_harms.py:87 | insertion adds exactly the new degree (as a multiset) |
| SynthCore.InsertSorted | synth_harms.py:87 | inserting into a sorted scale keeps it sorted |
| SynthCore.SortReals | synth_harms.py:87 | sorting yields a sorted permutation of the degrees |
| SynthCore.SortSpaced | synth_harms.py:85-87 | sorting degrees that are pairwise more than 0.5 apart gives a scale whose every step exceeds 0.5 |
| SynthCore.RandomScale | synth_harms.py:80-89 | the random scale starts at 0, has at most `count` degrees (exactly `count` unless the draws run out), each step exceeds 0.5, and every other degree is an accepted draw; every draw consumed is in the scale or within 0.5 of one of its degrees, and a full scale ends with the last draw consumed; the scale is the sorted `Sieve` of the draws consumed, and drawing stops at the first draw that fills it |
| SynthCore.SieveFirstCome | synth_harms.py:83-86 | first come wins: a draw is kept exactly when it is more than 0.5 from every degree kept from the draws before it, and a dropped draw changes nothing |
| SynthCore.SieveKeepsEarlierOfClosePair | synth_harms.py:83-86 | of the draws 5.0 then 5.2 the earlier is kept and the later dropped |
| SynthControls.EffectTablesStartAtInitial | synth_harms.py:420-429 | mode 0 of every effect table is the value its signal starts with; every delay time is positive and at least 0.2 s in the wet modes; mixes, input and feedback stay below 1 (initial signals at synth_harms.py:144-159) |
| SynthControls.DecodeEventWellFormed | synth_harms.py:446-452 | every decoded pad action carries an on-grid cell and that cell's pad id |
| SynthControls.DecodePadEvent | synth_harms.py:446-452 | a pad event decodes to a note-on (press) or note-off (release) of that very pad |
| SynthControls.DecodeSideEvent | synth_harms.py:418-445 | pressing side button i selects reverb, delay, arpeggiator, drums, octave up, octave down or power; releasing it does nothing |
| SynthControls.DecodeTopEvent | synth_harms.py:398-416 | pressing top button i selects key up/down, scale up/down, harmonics up/down hold, volume down/up; a release only clears the two harmonics holds |
| SynthControls.Mutate | synth_harms.py:400-443 | every action keeps the controller ranges; only key actions change the key, only octave actions the octave, and pad and ignored events change nothing |
| SynthControls.KeyUpDownInverse | synth_harms.py:402-403 | key up and key down undo each other |
| SynthControls.ScaleUpDownInverse | synth_harms.py:404-405 | scale up and scale down undo each other for any number of scales |
| SynthControls.ReverbCycleReturns | synth_harms.py:420 | four reverb presses return to the starting mode |
| SynthControls.DelayCycleReturns | synth_harms.py:426 | four delay presses return to the starting mode |
| SynthControls.DrumCycleReturns | synth_harms.py:433-437 | four drum presses return to the starting mode; two arpeggiator presses cancel |
| SynthControls.ClampedSteps | synth_harms.py:408-441 | away from the bounds, octave and volume steps undo each other; at a bound a step beyond it changes nothing |
| SynthControls.HarmonicsTick | synth_harms.py:386-393 | a listener pass changes only the harmonics count and keeps it within 5..60 |
| SynthControls.HarmonicsTickMoves | synth_harms.py:386-393 | holding one harmonics button moves the count one step towards its bound and then stays there; holding neither (or both, below 60) changes nothing |
| SynthControls.ControlsPitchRange | synth_harms.py:201-202 | under the controller ranges every pad pitch is a MIDI note in 0..125 |
| Synth.AssignAdvances | synth_harms.py:312-313 | after n presses the voice pointer has moved n slots round the 16-slot pool |
| Synth.AssignKeepsOthers | synth_harms.py:312 | a press maps only its own pad; other pads keep their slots or stay unmapped |
| Synth.AssignOwner | synth_harms.py:312-313 | the i-th press owns slot `ptr + i` (mod 16) unless its pad is pressed again later |
| Synth.SeventeenthNoteSharesSlot | synth_harms.py:312-313 | from an empty pool the 17th distinct pad reuses slot 0 while the first pad's entry still names slot 0 |
| Synth.ReleaseForgetsOnlyItsPitch | synth_harms.py:315-320 | a release unmaps the pad and can forget only its own pitch, exactly when no remaining pad sounds that pitch |
| Synth.PlayReleaseRoundTrip | synth_harms.py:304-320 | pressing and releasing a pad with nothing else at its pitch restores the pad map and the held pitches |
| Synth.StaleHeldPitch | synth_harms.py:313-319 | a key change between press and release leaves the pressed pitch (36) held with no pad sounding it (key change at synth_harms.py:402) |
| Synth.CachedWriteSettles | synth_harms.py:220-224 | after a cached write the pad's entry is the tuple and no other entry changes; the driver gets one write exactly when the cache differed; repeating the write sends nothing |
| Synth.LastWrite | synth_harms.py:222-223 | the last write the driver received for an LED is a write to that LED taken from the log, and there is none exactly when the LED was never written |
| Synth.LastWriteAppend | synth_harms.py:222-223 | one more write changes the last write of its own LED only |
| Synth.CachedWriteAgrees | synth_harms.py:220-224 | a cached write keeps the driver in agreement with the cache: the last write to every cached pad is its cached tuple |
| Synth.ClearWritesCover | synth_harms.py:188-195 | clearing turns off every pad and side LED on both generations, and the top row exactly on an Mk2 |
| Synth.PadIdsDecode | synth_harms.py:293-294 | every grid pad's id decodes back to its cell |
| Synth.Delist | synth_harms.py:317 | deleting a pad from the key order leaves exactly the other pads |
| Synth.DelistDistinct | synth_harms.py:317 | deleting a key keeps the key order free of repeats |
| Synth.EnlistDelistRoundTrip | synth_harms.py:312-317 | inserting a new pad at the end of the key order and deleting it again restores the order |
| Synth.RetuneAllLastWins | synth_harms.py:292-302 | re-tuning the mapped pads in the dictionary's key order changes only pitches; a slot no pad maps to is unchanged, and a slot shared by several pads takes the pitch of the last of them in key order |
| Synth.Synth.UpdatePad | synth_harms.py:215-224 | one pad update is the cached write of the pad's desired colour |
| Synth.Synth.RepaintPad | synth_harms.py:230 | one pad of the repaint: a targeted pad gets the cached write of its colour and shows it, an untargeted pad changes nothing; no other pad's shown colour or cache entry changes, and the driver stays in agreement with the cache |
| Synth.Synth.ShownIsDisplayed | synth_harms.py:220-224 | while the driver agrees with the cache, every pad whose cache entry is its colour has that colour as its last write on the device |
| Synth.Synth.ClearAllLeds | synth_harms.py:188-195 | the driver receives the clearing writes in id order and the cache is emptied |
| Synth.Synth.RefreshPads | synth_harms.py:285-288 | afterwards every targeted pad (all pads, or those of one pitch) shows its desired colour, no other cache entry changed, the driver log only grew, and the driver's last write to every cached pad is still its cached tuple (and the grid part of synth_harms.py:228-231) |
| Synth.Synth.RefreshRow | synth_harms.py:229-230 | one row of the repaint: every targeted pad of the row shows its colour, other rows keep what they show, nothing else in the cache changes, and the driver stays in agreement with the cache |
| Synth.Synth.PlayNote | synth_harms.py:304-313 | the voice under the pointer gets the quantised pitch, the pad's quad gains and its gate; the pad is mapped (joining the end of the key order if new), the pointer advances, the pitch is held, other voices are unchanged; every pad of that pitch shows white in the cache and as its last driver write, and no other cache entry changes |
| Synth.Synth.StopNote | synth_harms.py:315-320 | the pad's voice (if mapped) is un-gated and no other voice changes; the pad leaves the key order; map and held pitches follow the release rule; every pad of that pitch shows its colour in the cache and as its last driver write, and no other cache entry changes |
| Synth.Synth.ApplyTranspose | synth_harms.py:290-302 | the voices are re-tuned pad by pad in the dictionary's key order: only pitches change, unmapped slots are unchanged, and a shared slot keeps the pitch of the last pad in key order |
| Synth.Synth.Apply | synth_harms.py:399-452 | one listener action: controllers change as the action says; a press plays and a release stops the pad (the pool changes as `Played`/`Stopped` say, and every pad of its pitch shows its colour); key and octave changes re-tune with last-wins; colour-affecting actions leave every pad showing its colour, in the cache and as its last driver write; other actions change neither pool nor LEDs; throughout, the last driver write to every cached pad is its cached tuple |
| Synth.Synth.ApplyControl | synth_harms.py:402-443 | every key or octave press re-tunes the mapped voices with last-wins, an octave press clamped at ±3 included; a scale press changes the pitch map without re-tuning, and no other action touches the pool; it repaints the whole grid when colours may have changed, so that every pad's last driver write is its colour, and touches no LED otherwise |
| Synth.Synth.Step | synth_harms.py:385-452 | one listener pass: the held harmonics buttons step the count (then every pad shows its colour, in the cache and as its last driver write), then the decoded event acts as `Apply` says on the pool, the controllers and the LEDs, except that after a repaint for a held harmonics button a pad event leaves every pad showing its colour; with no event the pool is unchanged |
| Synth.Synth.Nudge | synth_harms.py:386-393 | one held harmonics button moves the count one step towards its bound and repaints, leaving every pad's colour in the cache and as its last driver write |
| Synth.Synth.OthersStillShow | synth_harms.py:304-320 | a press or release changes the wanted colour only of the pads of its own pitch, so a grid that showed every colour before the event and had that pitch repainted shows every colour |
| Synth.Synth.NudgeHeld | synth_harms.py:386-393 | each held harmonics button steps the count, and then every pad shows its colour on the device; with neither held the LEDs are untouched |
| Synth.Bounce | synth_harms.py:337-338 | the arpeggiator's octave walk stays within ±3 and turns round at the bounds |
| Synth.BouncePeriod | synth_harms.py:324-338 | from octave 0 going up the walk reaches +3 after 3 steps, -3 after 9, and the start again after 12 |
| Synth.ArpNote | synth_harms.py:329-331 | the arpeggiated note is always a held pitch shifted by whole octaves |
| Synth.ArpNoteRepeats | synth_harms.py:330 | after as many steps as there are held pitches the same note comes round again |
| Synth.ArpNoteRises | synth_harms.py:329-330 | within one pass through the held pitches the notes rise strictly |
| Synth.Arpeggiator.Tick | synth_harms.py:327-341 | while on with pitches held, all 16 voices take the next arpeggio note, the walk advances and the wait is the delay time (0.2 s when delay is off); otherwise nothing changes and the wait is 0.1 s |
| Synth.DrumMachine.Tick | synth_harms.py:346-377 | off: nothing; red and silenced: one beat with no hit; otherwise 1..4 (green, amber) or 1 beats, each striking the drawn instrument (9..11 strike nothing), the step advancing modulo 16 |
| FieldCore.QuadrantInfoSpec | stochastic_field.py:126-131 | the quadrant id is left/right plus top/bottom; the note index is in 0..15 and with the quadrant determines the cell; the octave offset is 1.5/0.5 in rows 0..2, 0.5/-0.5 in rows 3..4, -1/-1.5 below, the larger value in the left ("even") half |
| FieldCore.BandByPosition | stochastic_field.py:219 | the bell FM pair is used exactly in the top-left three rows, the bass pair exactly in the bottom three rows |
| FieldCore.DegreeIsRootIff | stochastic_field.py:209-213 | a note index plays the root exactly when it wraps to the first degree of its scale |
| FieldCore.TuningSpec | stochastic_field.py:215-219 | a tuned agent plays a degree of its scale transposed by the root and twelve per octave of offset, with its band's FM (ratio, index) |
| FieldCore.CellGainsSpec | stochastic_field.py:223-225 | every cell's four gains lie in [0, 1] and sum to 1; the top-left cell plays from channel 0 alone, the bottom-right from channel 3 |
| FieldCore.IntervalSpec | stochastic_field.py:205 | the trigger interval is positive, and `div` intervals at speed one fill a 16-beat bar |
| FieldCore.CellIndex | stochastic_field.py:299 | agent i sits at column i % 8 and row i / 8, and the press at (x, y) selects agent y * 8 + x (the list order is stochastic_field.py:245) |
| FieldCore.AgentColourLit | stochastic_field.py:239-242 | an active agent's pad is always lit (dim or bright), so only a deactivated pad is dark |
| FieldCore.EffectSettingsOrdered | stochastic_field.py:263-273 | only delay mode 0 mutes the delay lines; each later delay mode halves the time; chorus depth and reverb size grow with the mode |
| FieldCore.DecodeGridPress | stochastic_field.py:296-301 | a press on a cell's id toggles that cell, and every toggle decoded from a hardware id names the cell with that id |
| FieldCore.DecodeSidePress | stochastic_field.py:257-283 | side buttons 0, 1, 2, 4, 5 and 6 press to panic, delay, chorus, next sound, previous sound and power off; side buttons 3 and 7 do nothing |
| FieldCore.DecodeTopPress | stochastic_field.py:276-295 | top buttons 0..7 press to root down, root up, scale down, scale up, reverb, migration, volume down, volume up |
| FieldCore.MutateField | stochastic_field.py:263-295 | every action keeps the control ranges; root up/down move the unwrapped root by one and nothing else moves it |
| FieldCore.Clamp01 | stochastic_field.py:286 | `max(0, min(1, v))` lies in [0, 1] and leaves values already there alone |
| FieldCore.FieldStepsInverse | stochastic_field.py:282-293 | next and previous sound, and scale up and down, undo each other |
| FieldCore.Select | stochastic_field.py:304-317 | a list comprehension keeps exactly the indices of the agents its filter accepts |
| FieldCore.SelectUpdate | stochastic_field.py:304-314 | changing one agent changes the size of a selection by whether it was and is selected |
| FieldCore.SelectPartition | stochastic_field.py:314-317 | every agent is either active or an empty cell |
| FieldCore.SilencedAll | stochastic_field.py:262 | a panic reset keeps every agent's assignment and leaves none active |
| FieldCore.NoneActive | stochastic_field.py:314-315 | with every agent quiet no agent is counted active |
| FieldCore.MigrationKeepsCount | stochastic_field.py:312-321 | migration moves an active agent's division to an empty cell and keeps the number of active agents |
| FieldCore.MigrationPick | stochastic_field.py:314-319 | a move exists exactly when some agent is active and some cell is empty; it goes from an active agent to an empty cell |
| FieldCore.TransitionPick | stochastic_field.py:304-306 | a pick exists exactly when some agent is outdated, and the pick is outdated |
| FieldCore.TransitionShrinksOutdated | stochastic_field.py:304-310 | a re-synced agent is no longer outdated and the number of outdated agents drops by one |
| FieldCore.DueStep | stochastic_field.py:323 | checking one more agent extends the fired list and the restarted clocks by that agent |
| FieldCore.TickedSpec | stochastic_field.py:323 | after a pass exactly the due agents restarted at `now`, no interval changed, inactive agents never fire, and a second pass at the same instant fires nothing |
| Field.CellAgent.constructor | stochastic_field.py:184-196 | a new agent is inactive at its cell with its quadrant facts, division 1 and no carrier |
| Field.CellAgent.Activate | stochastic_field.py:198-207 | the agent becomes active with the current globals and the forced division (when given and non-zero) or the drawn one, is re-tuned and shows its dim colour |
| Field.CellAgent.Deactivate | stochastic_field.py:228-232 | the agent goes inactive, keeps its assignment and writes a dark pad |
| Field.CellAgent.Retune | stochastic_field.py:307-309 | the agent adopts the globals, is re-tuned, and refreshes its dim LED only if active |
| Field.CellAgent.Update | stochastic_field.py:234-242 | an agent fires exactly when active and a full interval has passed; firing restarts its clock and writes its bright colour |
| Field.Field.constructor | stochastic_field.py:70-84 | 64 inactive agents in row-major order, the initial controls, silent reverb inputs and both clocks at 0 (agents of stochastic_field.py:245-246) |
| Field.Field.Quiet | stochastic_field.py:228-232 | only agent i goes quiet, its quadrant's reverb input is zeroed and its pad goes dark; no clock changes |
| Field.Field.Wake | stochastic_field.py:198-207 | only agent i wakes with the globals and its division, its clock takes that division's period and keeps its last tick, it feeds its quadrant's reverb and shows its dim colour |
| Field.Field.Toggle | stochastic_field.py:299-301 | a press on an active agent is exactly `Quiet` and on an inactive one exactly `Wake` with the drawn division: snapshot, clock, reverb input and LED write included, nothing else changing |
| Field.Field.HandleEvent | stochastic_field.py:255-301 | power fades out and stops the fader, panic stops it, a grid press toggles the agent at y * 8 + x, every other press updates the controls; the whole new state is stated for each case |
| Field.Field.Control | stochastic_field.py:257-295 | power and panic stop the fader (power also marks the fade-out), other actions update the controls |
| Field.Field.PowerOffTimer | stochastic_field.py:259 | the power timer stops the main loop and nothing else |
| Field.Field.PanicTimer | stochastic_field.py:262 | the panic timer silences every agent, zeroes all four reverb inputs, darkens every pad in order and restarts the fader |
| Field.Field.Resync | stochastic_field.py:307-309 | agent i adopts the globals, its quadrant's reverb input is its carrier and an active agent shows its new dim colour; no clock changes |
| Field.Field.Transition | stochastic_field.py:303-310 | a re-sync happens exactly when some agent is outdated and more than 0.1 s has passed; it stamps the clock, re-syncs an outdated agent (reverb input and LED included) and lowers the outdated count by one; otherwise nothing changes |
| Field.Field.Move | stochastic_field.py:319-321 | the source agent goes quiet and the destination wakes with its division: both pads, both reverb inputs and the destination's clock change as `deactivate` then `activate` set them |
| Field.Field.Migrate | stochastic_field.py:312-321 | when migration is due the clock is stamped, and a move happens exactly when some agent is active and some cell empty; the active count is kept; otherwise nothing changes |
| Field.Field.Tick | stochastic_field.py:234-242 | agent i fires exactly when due; only its clock restarts, and only its bright write is logged |
| Field.Field.UpdateAll | stochastic_field.py:323 | every agent checks its clock in list order: exactly the due agents fire and restart, the snapshots are unchanged, and their bright writes are logged in order |
| Field.Field.Step | stochastic_field.py:252-324 | one main-loop pass is the event step, then the transition step, then the migration step, then the clock step, each stating the whole state it leaves |
| Field.TriggerStep | stochastic_field.py:323 | one more agent checked extends the LED log by its flash, if it fired |
| Field.AllOffStep | stochastic_field.py:262 | one more dark pad extends the panic's LED log by that pad |
| Field.QuietStep | stochastic_field.py:262 | silencing agent i's quadrant keeps earlier quadrants silent and adds its own |
| Testers.QuadGainsSpec | test_speakers.py:75-80 | for a column in 0..7 and a row in 1..8 the four gains are fractions summing to 1, a corner pad feeds only its own speaker and any other pad feeds each speaker less than everything (the same function is psychoa_test.py:129-131) |
| Testers.MaxMixUnique | test_speakers.py:256-265 | the loudest-of mix depends only on the set of held cells, not on the order the loop visits them (and psychoa_test.py:256-260) |
| Testers.MaxMixBounds | test_speakers.py:256-265 | with on-grid held cells each mixed gain is a fraction, no held cell mixes to silence, and a held corner's speaker gets full gain (and psychoa_test.py:256-260) |
| Testers.MaxMixStep | test_speakers.py:262-265 | folding one more cell into the mix speaker by speaker gives the mix of the larger set (and psychoa_test.py:258-260) |
| Testers.MixHeld | test_speakers.py:257-265 | the loop over held cells yields, per speaker, the largest gain any held cell sends there (0 when none) (and psychoa_test.py:257-260) |
| Testers.Raise | test_speakers.py:264-265 | each speaker's gain becomes the larger of its old gain and the cell's gain (and psychoa_test.py:260) |
| Testers.ManualGains | test_speakers.py:256-265 | outside manual mode (or with nothing held) the manual mix is silence, otherwise the loudest-of mix of the held cells (and psychoa_test.py:256-260) |
| Testers.SideIndex | psychoa_test.py:184-185 | `SIDE_BTNS.index(bid)` is defined exactly for the eight side ids and returns the position of `bid` |
| Testers.EdgeTriggered | test_speakers.py:168-192 | a held side button does not toggle again until it has been released; after a release the next press toggles (and psychoa_test.py:186-215) |
| Testers.VolColourMonotone | test_speakers.py:123-130 | a louder volume never shows a quieter colour band (green, amber, red, bright red) (and psychoa_test.py:150-154) |
| Psycho.Flip | psychoa_test.py:186-200 | a side press keeps the two directions of each illusion exclusive and the Doppler and binaural modes in 0..3 |
| Psycho.FlipSwitchesOver | psychoa_test.py:189-192 | pressing one direction of an illusion while the other runs switches over to the pressed one |
| Psycho.FlipTwice | psychoa_test.py:187-192 | two presses of a toggle restore the modes, except that the opposite direction is left off |
| Psycho.FlipCycles | psychoa_test.py:193-200 | four presses of the Doppler or binaural button return to the starting mode |
| Psycho.ToggleKeepsEngine | psychoa_test.py:189-205 | after any side toggle each gate is open exactly when its layer is on, the phasors run in the active direction, the Doppler depth is its mode's and a running binaural layer has its mode's carrier |
| Psycho.DopplerDepthMatchesGate | psychoa_test.py:193-204 | the Doppler sweep has non-zero depth exactly when its gate is open |
| Psycho.PsychoKeyDecode | psychoa_test.py:182-235 | the loop dispatches each side, solo, volume and grid button to its own handler, and top 5 exits only on a press |
| Psycho.PsychoVolumeSteps | psychoa_test.py:223-226 | the volume stays in [0, 1], moves one 0.05 step or clamps at an end, and an up step and a down step undo each other away from the ends |
| Psycho.ScanNext | psychoa_test.py:242-243 | the scan cursor always lands on one of the 64 cells |
| Psycho.ScanNextRoundTrip | psychoa_test.py:243 | a forward and a backward step undo each other; from idle the cursor goes forwards to cell 0 and backwards to cell 62 |
| Psycho.Regained | psychoa_test.py:244-248 | the layers that take the cursor cell's gains keep all gains fractions |
| Psycho.SideLeds | psychoa_test.py:207-214 | a toggle redraws all eight side LEDs |
| Psycho.SideLedsShowSwitches | psychoa_test.py:207-214 | each side LED goes to its own button and changes colour with its switch, except the Risset-accelerando LED on an Mk1, which only has red and green |
| Psycho.Mk1LedNeverWritten | psychoa_test.py:133-135 | on an Mk1 `lp_led_raw` as written reaches no LED for any recursion limit |
| Psycho.LedRawCorrected | psychoa_test.py:133-135 | the corrected write goes to its button, equals the code as written on an Mk2 and sends red and green on an Mk1 (the other scripts' write is test_speakers.py:82-86) |
| Psycho.Route | psychoa_test.py:262-267 | each layer's speakers get its gains while it is on and silence otherwise; the sine gets full gain on a held solo channel and the manual mix elsewhere |
| Psycho.Tester.constructor | psychoa_test.py:157-175 | start-up: every switch off, volume 0.6, cursor idle, layers silent, solo/side/volume/exit LEDs drawn |
| Psycho.Tester.HandleEvent | psychoa_test.py:180-235 | one event: exit, an edge-triggered side toggle with its engine and LEDs, a solo hold, a volume step or a manual grid press, each changing only its own state |
| Psycho.Tester.SidePress | psychoa_test.py:184-215 | on a rising edge the switch flips, the engine follows and the side LEDs are redrawn; the button state is recorded either way |
| Psycho.Tester.SoloPress | psychoa_test.py:217-221 | a solo button is held (red) from press to release (green) |
| Psycho.Tester.VolPress | psychoa_test.py:223-227 | a press steps the volume and recolours both volume buttons; a release does nothing |
| Psycho.Tester.GridPress | psychoa_test.py:229-235 | in manual mode a press holds its cell (green) and a release of a held cell frees it (dark); otherwise nothing changes |
| Psycho.Tester.ScanStep | psychoa_test.py:237-254 | while a scanning layer is on and the interval has passed the cursor steps (backwards for the ascending illusions), the active layers take its gains and the LEDs move; otherwise nothing changes |
| Psycho.Tester.Tick | psychoa_test.py:177-267 | one loop pass is the event step, then (unless the exit button ended the loop, which leaves the state as the event did) the scan step, the loudest-of manual mix and the audio update |
| Psycho.Tester.Publish | psychoa_test.py:262-267 | the audio update routes every layer and the solo/manual sine without changing the tester's state |
| Speakers.SpeakerKeyDecode | test_speakers.py:155-226 | side 0 and 1 toggle, side 6 exits only on a press, the other side buttons do nothing, and solo, volume and grid buttons reach their own handlers |
| Speakers.SpeakerVolumeSteps | test_speakers.py:204-212 | the volume stays in [0, 1], moves in the button's direction, and an up step and a down step undo each other away from the ends |
| Speakers.ScanVisitsEveryCell | test_speakers.py:236-242 | the 64 scan positions are exactly the 64 grid cells, row by row |
| Speakers.ScanUpdateSpec | test_speakers.py:228-253 | the cursor stays in range and only advances by one cell (wrapping), taking that cell's gains; stopped or paused the noise is silent and the cursor stays; paused, the step clock follows the time |
| Speakers.ResumeWaits | test_speakers.py:250-253 | after a paused pass the scan does not step until a whole interval has passed |
| Speakers.ClearCells | test_speakers.py:186-190 | leaving manual mode darkens every held cell exactly once, in any order |
| Speakers.ClearingStep | test_speakers.py:188-189 | darkening one more held cell extends the clearing of the cells done so far |
| Speakers.Route | test_speakers.py:267-279 | the noise follows the scan gains and the sine gets full gain on a held solo channel and the manual mix elsewhere |
| Speakers.Tester.constructor | test_speakers.py:109-147 | start-up: both modes off, volume 0.6, cursor idle with the first step due, silence, control LEDs drawn |
| Speakers.Tester.HandleEvent | test_speakers.py:153-226 | one event: the power button ends the loop, a side toggle, a solo hold, a volume step or a manual grid press, each changing only its own state |
| Speakers.Tester.SidePress | test_speakers.py:165-192 | on a rising edge side 0 or 1 flips its mode; the button state is recorded either way |
| Speakers.Tester.ScanToggle | test_speakers.py:169-179 | the scan flips, its LED shows it, and stopping darkens the cursor cell and parks the cursor |
| Speakers.Tester.ManualToggle | test_speakers.py:181-190 | manual mode flips, its LED shows it, and leaving it darkens and releases every held cell |
| Speakers.Tester.SoloPress | test_speakers.py:195-201 | a solo button is held (red) from press to release (green) |
| Speakers.Tester.VolPress | test_speakers.py:204-212 | a press steps the volume and recolours both volume buttons; a release does nothing |
| Speakers.Tester.GridPress | test_speakers.py:215-226 | in manual mode a press holds its cell (green) and a release of a held cell frees it (dark); otherwise nothing changes |
| Speakers.Tester.ScanStep | test_speakers.py:228-253 | the scan state moves as `ScanUpdate` says and the LEDs follow the cursor, sparing held cells; nothing else changes |
| Speakers.Tester.Tick | test_speakers.py:149-281 | one loop pass is the event step, then (unless the power button ended the loop, which leaves the state as the event did) the scan step, the loudest-of manual mix and the audio update |
| Speakers.Tester.Publish | test_speakers.py:267-279 | the audio update routes noise and sine without changing the tester's state |

## Left out

- **Audio graph.** The pyo objects (Server, oscillators, Adsr envelopes, Delay, Freeverb, Chorus, Port smoothing, Fader fades) are not modelled. A voice or effect is the record of the parameters the code sets on it, and a speaker output is the gain value the loop writes.
- **Frequencies.** `midiToHz` and the `2**(x/12)` formulas are transcendental. The model keeps pitches in semitones and FM settings as the table entries chosen.
- **Field speed.** The square-root speed factor of `get_quadrant_info` is a constant parameter of each `CellAgent` (`speed`).
- **Time and concurrency.**
  - Threads, `queue` and the LED worker, `lp_lock`, `threading.Timer` and `time.sleep` are left out.
  - A loop pass is one method, and the time is its `now` parameter.
  - The field's panic and power-off timers are separate methods (`PanicTimer`, `PowerOffTimer`) that a caller runs when the timer fires.
  - The field's post-flash `threading.Timer(0.1, self.refresh_led)` (stochastic_field.py:243) is not modelled: in the model a fired pad keeps its bright colour until its next LED write.
  - The arpeggiator's tick returns how long its loop would sleep, and the drum machine's tick returns how many beat-long waits it takes.
- **Driver.** Device detection, `Reset`/`Open`/`Close`, and reading events (`ButtonStateRaw`) are left out. The generation is a constructor parameter, and the event is an input to each step. `LedCtrlRaw` writes are an appended log.
- **Randomness.**
  - Every `random.choice`, `random.random` and `random.uniform` is a parameter: an index reduced modulo the list length, or a draw constrained to its range.
  - `RandomScale` takes its uniform draws as a sequence and stops when they run out.
- **Float rounding.** The model uses exact `real`, so accumulated rounding (for instance of repeated 0.05 volume steps) is not modelled.
- **Status LEDs.** The field's `update_ui` (stochastic_field.py:152-172) and the side- and top-button status colours of the synth's `refresh_grid_immediate` (synth_harms.py:232-281) are not modelled. The pad colours the synth repaints are.
- **Field intervals.** A field agent's `interval` is undefined in the source before its first `activate`. The model starts it at the interval of division 1 and states nothing about an inactive agent's interval.
- **Clean-up.** The `finally:` blocks of all four scripts, and the `print` output, are left out. Both run only on the way out or have no effect on the state.
- **Speaker tester's set order.** The order in which Python iterates a set of held cells is arbitrary. `Testers.MixHeld` and `Speakers.ClearCells` take the cells in any order and prove their result for every order.
- **Voice pool as written.** `Synth.Synth.PlayNote` does not reuse the voice a pad already holds when that pad is pressed again. It does not unmap the previous pad of a stolen slot either. This is what synth_harms.py:304-313 does; see `Synth.SeventeenthNoteSharesSlot`.
- **Stale held pitches.** `held_pitches` can keep a stale pitch when the key or octave changes between a press and its release. The model keeps this behaviour, and `Synth.StaleHeldPitch` exhibits it.
- **Behaviour that differs from the module docstrings.** The model follows the code.
  - The field's docstring numbers the side buttons 0..5 (power off as 5). The code uses side ids 0, 1, 2, 4, 5 and 6 for panic, delay, chorus, next sound, previous sound and power off, and ignores side 3 and side 7.
  - The psychoacoustics tester's docstring gives the binaural modes as 36, 72 and 108 Hz beats. The code sets those values as the carrier, keeps the beat at 4 Hz, and starts the carrier at 220.
  - In the speaker tester, `EXIT_BTN` is volume-up, and its exit is commented out. Side button 6 is what ends the program.
- **Quirks that are modelled as written.**
  - The psychoacoustics tester does not darken or release held cells when manual mode is switched off.
  - Its reverse scan from the idle cursor (-1) goes to cell 62.
  - In the synth, a scale press (synth_harms.py:404-405) changes the pitch every pad quantises to but does not re-tune the sounding voices, which keep their old pitches until released. Key and octave presses re-tune (synth_harms.py:402-403, 440-441), an octave press at the ±3 clamp included.

## Findings

| source | as written | input that shows it | evidently intended | confidence | as-written member | corrected member |
|---|---|---|---|---|---|---|
| psychoa_test.py:133-135 | on an Mk1 `lp_led_raw` calls itself with the same arguments and no base case, so the first LED write raises `RecursionError` and ends the program at start-up | any LED write on an Mk1, e.g. the start-up writes at psychoa_test.py:163 | send red and green to the driver, as the other scripts' `lp_led_raw` does on an Mk1 | high; not executed | Psycho.Mk1LedNeverWritten | Psycho.LedRawCorrected |
