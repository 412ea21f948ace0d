# Chord generator for a six-output CV module — Dafny model

This project models the core of a EuroPi script (`chordgenerator.py`). On every
trigger it picks one root note from the current mode. For each of six CV outputs
it then chooses an interval above that root by a weighted random walk over the
output's weight table, and emits that note as a 1 V/octave voltage. A small menu
state machine, driven by two buttons and two knobs, lets the operator browse and
edit the scale and the six weight tables.

Layout, one module per component:

- `scales.dfy` (`Scales`): the seven-mode table `SCALES`, keyed by name. It also
  gives the order of the names offered by the scale knob, and proves the shape
  of every mode.
- `intervals.dfy` (`Intervals`): the eight interval names as a datatype, in
  weight-table order (root, 2nd, 3rd, 4th, 5th, 6th, 7th, 9th), with their
  scale-step counts (0..6, and 8 for the ninth).
- `chord_engine.dfy` (`ChordEngine`): scale-degree arithmetic
  (`get_note_from_interval`), the voltage conversion (`note_to_voltage`) and the
  cumulative-weight walk (`select_note_from_weights`). The walk is a method with
  a loop, proved equal to a reference function `FirstReached`.
- `weights.dfy` (`Weights`): the factory weight tables and the knob weight edit
  (dead zone, snaps at knob positions 99 and 0, clamp to [0, 100]).
- `chord_generator.dfy` (`Generator`): the `ChordGenerator` class. Its fields are
  the script's state and its methods are the handlers (`on_b1_press`,
  `on_b2_press`, `navigate_back`, `navigate_forward`, `on_knob_turn`,
  `navigate_menu`, `adjust_setting`) and `generate_chord`. The per-output loop of
  `generate_chord` is the module-level method `ChannelVoltages`. The object invariant
  `Valid()` holds before and after every handler. It says:
  - every weight table is complete and within [0, 100];
  - the cursors are in range;
  - the current scale is a key of `SCALES`;
  - editing happens only on the cv, scale or key screen.

Randomness and hardware readings are parameters:

- the root is given as an index into the scale (`random.choice`);
- each output receives its own draw `r` (`random.uniform(0, total)`);
- the first knob's `range(n)` result, the second knob's `read_position()` and the
  index of the name picked by its `choice(...)` are method arguments, with the
  ranges those drivers return as preconditions.

`GenerateChord` returns the shared root and the six voltages instead of writing
them to the outputs. Voltages are Dafny `real`, so the division by 12 is exact.

Behaviour kept as `chordgenerator.py` has it:

- `get_note_from_interval` computes an octave-adjusted note (+12 for a ninth, or
  when the degree wrapped below the root) and then returns the unadjusted scale
  degree. `OctaveAdjustedNote` models the dropped value. `OctaveAdjustmentInaudible`
  shows that dropping it cannot be heard, because `note_to_voltage` keeps only the
  pitch class.
- Back while not editing on the scale, key or global screen changes nothing.
  Forward on scale or key only toggles editing, and on global does nothing. So
  none of the three screens can be left once entered: the scale, key and global
  screens are all dead ends. An alternative design returns Back to the main menu
  on these screens. The model follows the script instead. `OnB1Press`, `OnB2Press`
  and `OnKnobTurn` each state that they leave the screen unchanged everywhere
  except on the main and cv screens.
- The snaps of the weight edit to 100 at knob position 99 and to 0 at position 0
  apply only outside the dead zone. Coming from 98 or 100 to 99, or from 1 to 0,
  changes nothing (`SnapNeedsTwoSteps`).
- `random.uniform(0, total)` may return 0. A draw of exactly 0 stops the walk at
  the root interval even when the root's weight is 0 (`ZeroDrawSelectsRoot`). The
  weighted-sampling lemmas therefore assume a draw in (0, total].
- `navigate_back` cancels an edit in its last branch. Its only caller,
  `on_b1_press`, never reaches it while editing. Called while editing on a cv
  screen, it would leave `editing` set on the main menu. `NavigateBack` states
  this case exactly and promises the full invariant only for the other cases.

## Model

| member | source | states |
|---|---|---|
| Scales.AllScalesWellFormed | chordgenerator.py:7-15 | every mode has exactly 7 strictly increasing offsets in [0, 11] starting at 0 |
| Scales.WellFormedIsDistinct | chordgenerator.py:7-15 | a mode has no repeated offset, so `scale.index` of a member picks out that one degree |
| Scales.ScaleNamesAreKeys | chordgenerator.py:177-178 | the names the scale knob chooses from are exactly the table's keys, each once; the default "Ionian" is one of them |
| Intervals.Step | chordgenerator.py:223-232 | steps are at most 8 and never 7; step 8 belongs to the ninth and to no other interval |
| Intervals.Position | chordgenerator.py:19-24 | each interval name has one table index below 8, and that index holds the name (weight-table order) |
| Intervals.PositionInvertsOrder | chordgenerator.py:19-24 | table indices and interval names correspond one to one |
| Intervals.StepsIncreaseInTableOrder | chordgenerator.py:223-232 | steps strictly increase along table order, from 0 for root to 8 for the ninth, and 7 never occurs |
| ChordEngine.IndexOf | chordgenerator.py:238 | returns the first position holding the root, so the lookup is defined for every member |
| ChordEngine.IndexOfMember | chordgenerator.py:238 | in a scale without repeats, the index of the note at position k is k |
| ChordEngine.Wrap | chordgenerator.py:241 | the wrapped scale position is a valid index, and a position already inside the scale is left as it is |
| ChordEngine.NoteFromInterval | chordgenerator.py:222-249 | the returned note is always a member of the scale, and the root interval returns the root itself |
| ChordEngine.NoteFromIntervalDegree | chordgenerator.py:235-243 | the returned note sits at degree (index of root + step) mod scale length |
| ChordEngine.NinthIsSecond | chordgenerator.py:231-241 | in a seven-note scale the ninth (step 8) returns the same note as the second (step 1) |
| ChordEngine.OctaveAdjustedNote | chordgenerator.py:243-247 | the computed-then-dropped note is the returned note plus 12 for a ninth, and the returned note or that plus 12 otherwise |
| ChordEngine.OctaveAdjustedNotBelowRoot | chordgenerator.py:245-247 | in a well-formed mode the adjusted note lies in [root, root + 24) |
| ChordEngine.OctaveAdjustmentInaudible | chordgenerator.py:245-253 | the dropped adjustment never changes the output voltage |
| ChordEngine.NoteToVoltage | chordgenerator.py:252-253 | every voltage lies in [0, 11/12] |
| ChordEngine.VoltageIgnoresOctave | chordgenerator.py:252-253 | moving a note by any whole number of octaves leaves its voltage unchanged |
| ChordEngine.VoltageIdentifiesPitchClass | chordgenerator.py:252-253 | two notes give the same voltage exactly when their pitch classes agree |
| ChordEngine.VoltageReferencePoints | chordgenerator.py:252-253 | note 0 gives 0 V, note 12 gives 0 V, note 7 gives 7/12 V |
| ChordEngine.Sum | chordgenerator.py:209 | the total of non-negative weights is non-negative |
| ChordEngine.EntryAtMostSum | chordgenerator.py:209 | with non-negative weights no single weight exceeds the total |
| ChordEngine.RunningTotalStep | chordgenerator.py:215-217 | each step of the walk adds exactly the current interval's weight to the running total |
| ChordEngine.SumOfZeros | chordgenerator.py:209-212 | a table of zeros has total 0 |
| ChordEngine.SumOfSingleEntry | chordgenerator.py:209 | a table with one possibly-nonzero entry has that entry as its total |
| ChordEngine.RunningTotalMonotone | chordgenerator.py:215-217 | with non-negative weights the running total never decreases |
| ChordEngine.FirstReached | chordgenerator.py:215-219 | the stopping position is the first whose running total is at least the draw, or the table length if none is |
| ChordEngine.SelectedNote | chordgenerator.py:206-220 | the note an output plays is always a member of the scale |
| ChordEngine.SelectNoteFromWeights | chordgenerator.py:206-220 | the loop returns the root for a zero total, else the note of the first interval reaching the draw, else the root |
| ChordEngine.ZeroWeightsSelectRoot | chordgenerator.py:209-212 | an all-zero table always plays the root |
| ChordEngine.SelectionWindow | chordgenerator.py:214-219 | for non-negative weights and a positive draw, interval k is chosen iff the draw lies in (total before k, total through k] |
| ChordEngine.SelectedIntervalHasWeight | chordgenerator.py:214-219 | for a draw in (0, total] the walk stops on an interval with positive weight |
| ChordEngine.FallbackUnreachable | chordgenerator.py:214-220 | for a draw in (0, total] the final fallback is never taken: the walk stops inside the table, and the note comes from an interval with positive weight |
| ChordEngine.SingleWeightIsDeterministic | chordgenerator.py:214-219 | a table with one positive entry always selects that entry for every draw in (0, that weight] |
| ChordEngine.ZeroDrawSelectsRoot | chordgenerator.py:214-219 | a draw of exactly 0 selects the root interval whatever the weights |
| Weights.DefaultTablesValid | chordgenerator.py:18-25 | the six factory tables are complete and in range; cv1/cv2 put 100 on the root, cv3/cv5 on the 3rd, cv4/cv6 on the 5th, and 0 elsewhere |
| Weights.Abs | chordgenerator.py:166 | the absolute value is the number or its negation, and never negative |
| Weights.InDeadZone | chordgenerator.py:166 | a move is ignored exactly when its absolute delta is at most 1, that is when the new position is the snapshot or one of its neighbours |
| Weights.Clamp | chordgenerator.py:173 | the result lies in [0, 100]; values already in range are kept, values below go to 0 and values above to 100 |
| Weights.TurnedWeight | chordgenerator.py:166-173 | a weight edit outside the dead zone always leaves the weight in [0, 100] |
| Weights.TurnFollowsKnob | chordgenerator.py:163-173 | the weight never moves against the knob: up when the knob moved up, down when it moved down |
| Weights.TurnIsRelative | chordgenerator.py:163-173 | away from positions 0 and 99 and without clamping, the weight changes by exactly the knob's delta |
| Weights.KnobTurnExamples | chordgenerator.py:163-174 | 50 at knob 50 turned to 52 gives 52; a following 51 is in the dead zone; once outside the dead zone, 99 gives 100 and 0 gives 0 |
| Weights.SnapNeedsTwoSteps | chordgenerator.py:166-171 | the snap at 99 is reached only from a snapshot of 97 or below, and the snap at 0 only from 2 or above |
| Generator.ChordGenerator.constructor | chordgenerator.py:28-39 | start-up state: Ionian, key C, factory tables, main menu at position 0, cv1, not editing, knob snapshot 50 |
| Generator.ChordGenerator.NavigateBack | chordgenerator.py:62-70 | cv screen goes to main with position 0; main does nothing; scale, key and global change nothing when not editing |
| Generator.ChordGenerator.NavigateForward | chordgenerator.py:72-94 | from main, positions 0-5 open cv(p+1) with cursor 0, and 6, 7, 8 open scale, key and global; editable screens toggle editing; global does nothing; the invariant is kept |
| Generator.ChordGenerator.OnB1Press | chordgenerator.py:47-51 | while editing only clears `editing`; otherwise acts as NavigateBack; the invariant is kept; the scale, key and global screens are never left |
| Generator.ChordGenerator.OnB2Press | chordgenerator.py:54-58 | while editing only clears `editing`; otherwise acts as NavigateForward; the invariant is kept; the scale, key and global screens are never left |
| Generator.ChordGenerator.NavigateMenu | chordgenerator.py:184-190 | the first knob sets the main cursor (0..8) on main and the interval cursor (0..7) on cv; nothing else changes |
| Generator.ChordGenerator.AdjustSetting | chordgenerator.py:154-182 | on cv, a move inside the dead zone changes nothing; otherwise the selected weight becomes TurnedWeight and the snapshot becomes the position. No other weight changes. On scale, the scale becomes the chosen key of `SCALES` |
| Generator.ChordGenerator.OnKnobTurn | chordgenerator.py:148-152 | while editing acts as AdjustSetting, otherwise as NavigateMenu; the screen and edit flag never change, so the scale, key and global screens are never left |
| Generator.ChannelVoltages | chordgenerator.py:200-204 | one voltage per output, in output order; output c's voltage is that of the note its own table selects with its own draw |
| Generator.ChordGenerator.GenerateChord | chordgenerator.py:192-204 | one root from the current scale is shared by all six outputs; output c's voltage is that of the note its own table selects with its own draw |
| Generator.DefaultTablesPlayTriad | chordgenerator.py:18-25 | with factory tables and draws in (0, 100], cv1 and cv2 play the root, cv3 and cv5 the third, cv4 and cv6 the fifth |

## Left out

- Display rendering (`update_display`, the `display_*_menu` methods, `invert_text`): screen output only. Every call is a no-op in the model.
- Handler registration (`@din.handler`, `@b1.handler`, `@b2.handler`), the trigger flag, `on_din` and the `main` polling loop with `machine.idle()`: hardware dispatch and power management. The handler bodies are plain methods.
- Knob drivers `k1.range`, `k2.read_position`, `k2.choice`: library code outside this model. Their results are method parameters, limited to the ranges the drivers return.
- `random.choice` and `random.uniform`: replaced by an index argument and one draw argument per output. Distributions are not modelled; `SelectionWindow` states the window of draws that picks each interval.
- Writing voltages to the CV outputs (`globals()[cv_name].voltage(...)`): `GenerateChord` returns the six voltages instead.
- Floating-point representation: voltages and draws are exact reals.
- The shallow `DEFAULT_CV_WEIGHTS.copy()`: its inner tables are shared with the module-level defaults, so edits also change the defaults. Each weight table is modelled as a fresh value held by the object.
- `current_key`: only "C" is supported and no handler changes it. It is a field that stays as initialised.
- Generator.ChordGenerator.GenerateChord: takes a draw for every output, including one whose total is zero, where `select_note_from_weights` draws nothing. The draw is ignored in that case.
