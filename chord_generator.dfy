/**
  The ChordGenerator script object: its configuration (scale, key, six weight
  tables) and its menu state, changed in place by the button and knob
  handlers, and the chord generation run on each trigger.

  Knob readings are parameters: k1Choice is what the first knob's range(n)
  returned, k2Position what the second knob's read_position() returned, and
  k2Choice the index of the scale name its choice(...) picked. The root draw
  is the index into the scale, and each output's uniform draw is given too.
  Display refreshes are no-ops.
*/
module Generator {
  import opened Scales
  import opened Intervals
  import opened ChordEngine
  import opened Weights

  /** The five screens: main menu, one output's weights, scale, key, global. */
  datatype Menu = Main | Cv | Scale | Key | Global

  /** Screens on which the second button starts an edit. */
  predicate Editable(m: Menu)
  {
    m == Cv || m == Scale || m == Key
  }

  /** Number of entries on the main menu: cv1..cv6, Scale, Key, Global. */
  const MainMenuSize: nat := 9

  class ChordGenerator {
    var currentScale: string
    var currentKey: string
    /** cvWeights[c] is the table of output c + 1, in interval table order. */
    var cvWeights: seq<seq<int>>
    var menuPosition: int
    var submenuPosition: int
    /** The output being edited, 1..6 (the script's "cv1".."cv6"). */
    var currentCv: int
    var editing: bool
    var currentMenu: Menu
    var lastK2Position: int

    /** The shape of the state: complete tables in range, cursors in range, a known scale. */
    ghost predicate WellFormed()
      reads this
    {
      && |cvWeights| == ChannelCount
      && (forall c :: 0 <= c < ChannelCount ==> ValidTable(cvWeights[c]))
      && 0 <= menuPosition < MainMenuSize
      && 0 <= submenuPosition < TableSize
      && 1 <= currentCv <= ChannelCount
      && currentScale in SCALES
    }

    /** The object invariant: well formed, and editing only on an editable screen. */
    ghost predicate Valid()
      reads this
    {
      WellFormed() && (editing ==> Editable(currentMenu))
    }

    /** Configuration the menu does not touch: scale, key, tables and the knob snapshot. */
    twostate predicate SettingsUnchanged()
      reads this
    {
      && currentScale == old(currentScale)
      && currentKey == old(currentKey)
      && cvWeights == old(cvWeights)
      && lastK2Position == old(lastK2Position)
    }

    /** The cursor inside the output screen and the output it points at. */
    twostate predicate SubmenuUnchanged()
      reads this
    {
      submenuPosition == old(submenuPosition) && currentCv == old(currentCv)
    }

    /** The effect of navigate_back. */
    twostate predicate BackTransition()
      reads this
    {
      && SettingsUnchanged() && SubmenuUnchanged()
      && currentMenu == (if old(currentMenu) == Cv then Main else old(currentMenu))
      && menuPosition == (if old(currentMenu) == Cv then 0 else old(menuPosition))
      && editing == (old(editing) && (old(currentMenu) == Main || old(currentMenu) == Cv))
    }

    /** The effect of navigate_forward. */
    twostate predicate ForwardTransition()
      reads this
    {
      && SettingsUnchanged() && menuPosition == old(menuPosition)
      && (old(currentMenu) == Main ==>
            && editing == old(editing)
            && (if old(menuPosition) < 6 then
                  currentMenu == Cv && currentCv == old(menuPosition) + 1 && submenuPosition == 0
                else
                  && SubmenuUnchanged()
                  && currentMenu == (if old(menuPosition) == 6 then Scale
                                     else if old(menuPosition) == 7 then Key
                                     else Global)))
      && (Editable(old(currentMenu)) ==>
            currentMenu == old(currentMenu) && editing == !old(editing) && SubmenuUnchanged())
      && (old(currentMenu) == Global ==>
            currentMenu == Global && editing == old(editing) && SubmenuUnchanged())
    }

    /** The effect of navigate_menu: the first knob moves the cursor of the main or output screen. */
    twostate predicate MenuTransition(k1Choice: int)
      reads this
    {
      && SettingsUnchanged() && currentCv == old(currentCv)
      && currentMenu == old(currentMenu) && editing == old(editing)
      && menuPosition == (if old(currentMenu) == Main then k1Choice else old(menuPosition))
      && submenuPosition == (if old(currentMenu) == Cv then k1Choice else old(submenuPosition))
    }

    /**
      The effect of adjust_setting: on an output screen the selected weight
      follows the second knob (unless the move is in the dead zone); on the
      scale screen the scale becomes the chosen name; elsewhere nothing.
    */
    twostate predicate AdjustTransition(k2Position: int, k2Choice: nat)
      reads this
    {
      && currentMenu == old(currentMenu) && editing == old(editing)
      && menuPosition == old(menuPosition) && SubmenuUnchanged()
      && currentKey == old(currentKey)
      && (old(currentMenu) == Cv ==>
            && currentScale == old(currentScale)
            && 0 <= currentCv - 1 < |old(cvWeights)|
            && 0 <= submenuPosition < |old(cvWeights)[currentCv - 1]|
            && (if InDeadZone(old(lastK2Position), k2Position) then
                  cvWeights == old(cvWeights) && lastK2Position == old(lastK2Position)
                else
                  && lastK2Position == k2Position
                  && cvWeights == old(cvWeights)[currentCv - 1 :=
                       old(cvWeights)[currentCv - 1][submenuPosition :=
                         TurnedWeight(old(cvWeights)[currentCv - 1][submenuPosition],
                                      old(lastK2Position), k2Position)]]))
      && (old(currentMenu) == Scale ==>
            && 0 <= k2Choice < |ScaleNames|
            && currentScale == ScaleNames[k2Choice]
            && cvWeights == old(cvWeights) && lastK2Position == old(lastK2Position))
      && (old(currentMenu) != Cv && old(currentMenu) != Scale ==> SettingsUnchanged())
    }

    /** Start-up state: Ionian in C, factory tables, main menu, cursor at cv1, knob snapshot 50. */
    constructor ()
      ensures Valid()
      ensures currentScale == DefaultScale && currentKey == "C"
      ensures cvWeights == DEFAULT_CV_WEIGHTS
      ensures menuPosition == 0 && submenuPosition == 0 && currentCv == 1
      ensures !editing && currentMenu == Main && lastK2Position == 50
    {
      DefaultTablesValid();
      currentScale := DefaultScale;
      currentKey := "C";
      cvWeights := DEFAULT_CV_WEIGHTS;
      menuPosition := 0;
      submenuPosition := 0;
      currentCv := 1;
      editing := false;
      currentMenu := Main;
      lastK2Position := 50;
    }

    /**
      Back: leaves an output screen for the main menu with the cursor reset;
      on the main menu does nothing; elsewhere only cancels an edit. Its only
      caller does not reach it while editing; reached while editing on an
      output screen it would leave editing set on the main menu, so the full
      invariant is promised for the other cases only.
    */
    method NavigateBack()
      requires Valid()
      modifies this
      ensures WellFormed()
      ensures !(old(editing) && old(currentMenu) == Cv) ==> Valid()
      ensures BackTransition()
      ensures !old(editing) && old(currentMenu) != Cv ==> unchanged(this)
    {
      if currentMenu == Main {
        return;
      } else if currentMenu == Cv {
        currentMenu := Main;
        menuPosition := 0;
      } else if editing {
        editing := false;
      }
    }

    /**
      Forward: from the main menu enters the screen under the cursor (an
      output screen with its cursor on the root, or scale, key, global); on an
      editable screen toggles editing; on the global screen does nothing.
    */
    method NavigateForward()
      requires Valid()
      modifies this
      ensures Valid()
      ensures ForwardTransition()
      ensures old(currentMenu) == Global ==> unchanged(this)
    {
      if currentMenu == Main {
        if menuPosition < 6 {
          currentMenu := Cv;
          currentCv := menuPosition + 1;
          submenuPosition := 0;
        } else if menuPosition == 6 {
          currentMenu := Scale;
        } else if menuPosition == 7 {
          currentMenu := Key;
        } else if menuPosition == 8 {
          currentMenu := Global;
        }
      } else if currentMenu == Cv {
        if !editing {
          editing := true;
        } else {
          editing := false;
        }
      } else if currentMenu == Scale || currentMenu == Key {
        if !editing {
          editing := true;
        } else {
          editing := false;
        }
      }
    }

    /**
      Button 1: cancels an edit and changes nothing else; otherwise navigates
      back. The scale, key and global screens are never left (see OnKnobTurn).
    */
    method OnB1Press()
      requires Valid()
      modifies this
      ensures Valid()
      ensures old(editing) ==>
        && !editing && currentMenu == old(currentMenu) && menuPosition == old(menuPosition)
        && SettingsUnchanged() && SubmenuUnchanged()
      ensures !old(editing) ==> BackTransition()
      ensures old(currentMenu) == Global ==> unchanged(this)
      ensures old(currentMenu) != Main && old(currentMenu) != Cv ==> currentMenu == old(currentMenu)
    {
      if editing {
        editing := false;
      } else {
        NavigateBack();
      }
    }

    /** Button 2: confirms an edit and changes nothing else; otherwise navigates forward. */
    method OnB2Press()
      requires Valid()
      modifies this
      ensures Valid()
      ensures old(editing) ==>
        && !editing && currentMenu == old(currentMenu) && menuPosition == old(menuPosition)
        && SettingsUnchanged() && SubmenuUnchanged()
      ensures !old(editing) ==> ForwardTransition()
      ensures old(currentMenu) == Global ==> unchanged(this)
      ensures old(currentMenu) != Main && old(currentMenu) != Cv ==> currentMenu == old(currentMenu)
    {
      if editing {
        editing := false;
      } else {
        NavigateForward();
      }
    }

    /** The first knob picks one of 9 main-menu entries or one of the 8 intervals of an output. */
    method NavigateMenu(k1Choice: int)
      requires Valid()
      requires currentMenu == Main ==> 0 <= k1Choice < MainMenuSize
      requires currentMenu == Cv ==> 0 <= k1Choice < TableSize
      modifies this
      ensures Valid()
      ensures MenuTransition(k1Choice)
      ensures old(currentMenu) != Main && old(currentMenu) != Cv ==> unchanged(this)
    {
      if currentMenu == Main {
        menuPosition := k1Choice;
      } else if currentMenu == Cv {
        submenuPosition := k1Choice;
      }
    }

    /**
      Applies the second knob to the setting being edited. Only the weight
      at (current output, interval under the cursor) can change, and it stays
      within [0, 100].
    */
    method AdjustSetting(k2Position: int, k2Choice: nat)
      requires Valid()
      requires 0 <= k2Position <= 100
      requires currentMenu == Scale ==> k2Choice < |ScaleNames|
      modifies this
      ensures Valid()
      ensures AdjustTransition(k2Position, k2Choice)
      ensures forall c, i ::
                0 <= c < ChannelCount && 0 <= i < TableSize && (c != currentCv - 1 || i != submenuPosition)
                ==> cvWeights[c][i] == old(cvWeights)[c][i]
    {
      if currentMenu == Cv {
        var cv := currentCv - 1;
        var note := submenuPosition;
        var currentPosition := k2Position;
        if !InDeadZone(lastK2Position, currentPosition) {
          var newWeight := TurnedWeight(cvWeights[cv][note], lastK2Position, currentPosition);
          cvWeights := cvWeights[cv := cvWeights[cv][note := newWeight]];
          lastK2Position := currentPosition;
        }
      } else if currentMenu == Scale {
        ScaleNamesAreKeys();
        currentScale := ScaleNames[k2Choice];
      }
    }

    /**
      One poll of the knobs: edits the current setting while editing, moves a
      cursor otherwise. Together with the two button handlers this makes the
      scale, key and global screens dead ends: no handler changes the screen
      once one of them is entered.
    */
    method OnKnobTurn(k1Choice: int, k2Position: int, k2Choice: nat)
      requires Valid()
      requires currentMenu == Main ==> 0 <= k1Choice < MainMenuSize
      requires currentMenu == Cv ==> 0 <= k1Choice < TableSize
      requires 0 <= k2Position <= 100
      requires currentMenu == Scale ==> k2Choice < |ScaleNames|
      modifies this
      ensures Valid()
      ensures old(editing) ==> AdjustTransition(k2Position, k2Choice)
      ensures !old(editing) ==> MenuTransition(k1Choice)
      ensures old(currentMenu) == Global ==> unchanged(this)
      ensures old(currentMenu) != Main && old(currentMenu) != Cv ==> currentMenu == old(currentMenu)
    {
      if editing {
        AdjustSetting(k2Position, k2Choice);
      } else {
        NavigateMenu(k1Choice);
      }
    }

    /**
      One trigger: a single root drawn from the current scale (by index) is
      shared by all six outputs; output c plays the note its own table selects
      with its own draw, converted to a voltage.
    */
    method GenerateChord(rootIndex: nat, draws: seq<real>) returns (rootNote: int, voltages: seq<real>)
      requires Valid()
      requires rootIndex < |SCALES[currentScale]|
      requires |draws| == ChannelCount
      ensures rootNote == SCALES[currentScale][rootIndex]
      ensures |voltages| == ChannelCount
      ensures forall c :: 0 <= c < ChannelCount ==>
                voltages[c] == NoteToVoltage(SelectedNote(SCALES[currentScale], cvWeights[c], rootNote, draws[c]))
    {
      var scaleName := currentScale;
      var scale := SCALES[scaleName];
      rootNote := scale[rootIndex];
      voltages := ChannelVoltages(scale, cvWeights, rootNote, draws);
    }
  }

  /**
    The loop over outputs cv1..cv6 of one trigger: every output uses the same
    root and its own table and draw.
  */
  method ChannelVoltages(scale: seq<int>, weights: seq<seq<int>>, rootNote: int, draws: seq<real>)
    returns (voltages: seq<real>)
    requires rootNote in scale
    requires |weights| == ChannelCount && |draws| == ChannelCount
    requires forall c :: 0 <= c < ChannelCount ==> |weights[c]| == |IntervalOrder|
    ensures |voltages| == ChannelCount
    ensures forall c :: 0 <= c < ChannelCount ==>
              voltages[c] == NoteToVoltage(SelectedNote(scale, weights[c], rootNote, draws[c]))
  {
    voltages := [];
    for i := 1 to ChannelCount + 1
      invariant |voltages| == i - 1
      invariant forall c :: 0 <= c < i - 1 ==>
                  voltages[c] == NoteToVoltage(SelectedNote(scale, weights[c], rootNote, draws[c]))
    {
      var note := SelectNoteFromWeights(scale, weights[i - 1], rootNote, draws[i - 1]);
      voltages := voltages + [NoteToVoltage(note)];
    }
  }

  /**
    With the factory tables and draws in (0, 100], cv1 and cv2 play the root,
    cv3 and cv5 the third and cv4 and cv6 the fifth above it.
  */
  lemma DefaultTablesPlayTriad(scale: seq<int>, rootNote: int, r: real)
    requires rootNote in scale
    requires 0.0 < r <= 100.0
    ensures SelectedNote(scale, DEFAULT_CV_WEIGHTS[0], rootNote, r) == rootNote
    ensures SelectedNote(scale, DEFAULT_CV_WEIGHTS[1], rootNote, r) == rootNote
    ensures SelectedNote(scale, DEFAULT_CV_WEIGHTS[2], rootNote, r) == NoteFromInterval(scale, rootNote, Third)
    ensures SelectedNote(scale, DEFAULT_CV_WEIGHTS[3], rootNote, r) == NoteFromInterval(scale, rootNote, Fifth)
    ensures SelectedNote(scale, DEFAULT_CV_WEIGHTS[4], rootNote, r) == NoteFromInterval(scale, rootNote, Third)
    ensures SelectedNote(scale, DEFAULT_CV_WEIGHTS[5], rootNote, r) == NoteFromInterval(scale, rootNote, Fifth)
  {
    DefaultTablesValid();
    forall c | 0 <= c < ChannelCount
      ensures SelectedNote(scale, DEFAULT_CV_WEIGHTS[c], rootNote, r)
           == NoteFromInterval(scale, rootNote, DefaultFocus(c))
    {
      var t := DEFAULT_CV_WEIGHTS[c];
      var m := Position(DefaultFocus(c));
      SingleWeightIsDeterministic(scale, t, rootNote, r, m);
    }
  }
}
