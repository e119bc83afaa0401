/** The input half of the framebuffer backend's loop: the modifier state
    kept across frames, updated in place by modifier keys, and the egui
    events pushed for each keyboard and pointer-button event. */
module FbInput {
  import opened Bytes
  import opened Keys
  import opened KeyLaws

  /** egui's pointer buttons. */
  datatype PointerButton = Primary | Secondary | Middle | Extra1 | Extra2

  /** The egui events this part of the loop pushes (the pointer position
      carried by a button event is left out). */
  datatype InputEvent =
    | KeyEvent(key: EguiKey, pressed: bool, repeat: bool, modifiers: Modifiers)
    | Text(text: string)
    | ButtonEvent(button: PointerButton, pressed: bool, modifiers: Modifiers)

  // ------------------------------------------------------------ buttons

  /** The button-code match: `None` is the `continue` arm, which pushes
      nothing. */
  function ButtonFor(code: nat): Option<PointerButton>
  {
    match code
    case 272 => Some(Primary)     // BTN_LEFT
    case 273 => Some(Secondary)   // BTN_RIGHT
    case 274 => Some(Middle)      // BTN_MIDDLE
    case 276 => Some(Extra1)      // BTN_EXTRA
    case 275 => Some(Extra2)      // BTN_SIDE
    case _ => None
  }

  /** The Linux button code of each egui button. */
  function ButtonCode(b: PointerButton): nat
  {
    match b
    case Primary => 272
    case Secondary => 273
    case Middle => 274
    case Extra1 => 276
    case Extra2 => 275
  }

  /** The table is the inverse of `ButtonCode`: exactly the five codes
      272-276 give a button, each a different one. */
  lemma ButtonTableInverse(code: nat, b: PointerButton)
    ensures ButtonFor(ButtonCode(b)) == Some(b)
    ensures ButtonFor(code) == Some(b) <==> code == ButtonCode(b)
    ensures ButtonFor(code).Some? <==> 272 <= code <= 276
  {
  }

  // ------------------------------------------------------------ modifiers

  /** The if/else-if chain run on a `Mod` change: the first held modifier
      flagged is set to `isDown`; otherwise, on a press only, the first
      lock flagged is toggled. */
  function UpdateModifiers(m: SuperModifiers, change: SuperModifiers, isDown: bool): SuperModifiers
  {
    if change.left_alt then m.(left_alt := isDown)
    else if change.right_alt then m.(right_alt := isDown)
    else if change.left_ctrl then m.(left_ctrl := isDown)
    else if change.right_ctrl then m.(right_ctrl := isDown)
    else if change.left_shift then m.(left_shift := isDown)
    else if change.right_shift then m.(right_shift := isDown)
    else if isDown then
      (if change.caps_lock then m.(caps_lock := !m.caps_lock)
       else if change.num_lock then m.(num_lock := !m.num_lock)
       else m)
    else m
  }

  /** How many of the eight fields differ between two states. */
  function Differences(a: SuperModifiers, b: SuperModifiers): nat
  {
    Count(a.caps_lock != b.caps_lock) + Count(a.num_lock != b.num_lock) +
    Count(a.left_shift != b.left_shift) + Count(a.right_shift != b.right_shift) +
    Count(a.left_ctrl != b.left_ctrl) + Count(a.right_ctrl != b.right_ctrl) +
    Count(a.left_alt != b.left_alt) + Count(a.right_alt != b.right_alt)
  }

  /** Sets every field `change` flags to `v`. */
  function SetFlagged(m: SuperModifiers, change: SuperModifiers, v: bool): SuperModifiers
  {
    SuperModifiers(
      if change.caps_lock then v else m.caps_lock, if change.num_lock then v else m.num_lock,
      if change.left_shift then v else m.left_shift, if change.right_shift then v else m.right_shift,
      if change.left_ctrl then v else m.left_ctrl, if change.right_ctrl then v else m.right_ctrl,
      if change.left_alt then v else m.left_alt, if change.right_alt then v else m.right_alt)
  }

  /** One `Mod` change never alters more than one field, whatever it flags. */
  lemma UpdateChangesAtMostOneField(m: SuperModifiers, change: SuperModifiers, isDown: bool)
    ensures Differences(m, UpdateModifiers(m, change, isDown)) <= 1
  {
  }

  /** A held modifier key (shift, ctrl or alt, either side) sets exactly its
      own field to whether it is down, and nothing else. */
  lemma HeldModifierFollowsKey(m: SuperModifiers, change: SuperModifiers, isDown: bool)
    requires FlagCount(change) == 1 && !change.caps_lock && !change.num_lock
    ensures UpdateModifiers(m, change, isDown) == SetFlagged(m, change, isDown)
  {
  }

  /** A lock key toggles its own flag when pressed and changes nothing when
      released. */
  lemma LockKeyToggles(m: SuperModifiers, change: SuperModifiers, isDown: bool)
    requires FlagCount(change) == 1 && (change.caps_lock || change.num_lock)
    ensures isDown ==> UpdateModifiers(m, change, isDown) == SetFlagged(m, change, !(if change.caps_lock then m.caps_lock else m.num_lock))
    ensures !isDown ==> UpdateModifiers(m, change, isDown) == m
  {
  }

  /** Two presses of a lock key restore the state. */
  lemma LockPressedTwice(m: SuperModifiers, change: SuperModifiers)
    requires FlagCount(change) == 1 && (change.caps_lock || change.num_lock)
    ensures UpdateModifiers(UpdateModifiers(m, change, true), change, true) == m
  {
  }

  /** Pressing and releasing any modifier key leaves the held modifiers as
      they were when that key started up. */
  lemma HeldPressReleaseRestores(m: SuperModifiers, change: SuperModifiers)
    requires FlagCount(change) == 1 && !change.caps_lock && !change.num_lock
    requires SetFlagged(m, change, false) == m
    ensures UpdateModifiers(UpdateModifiers(m, change, true), change, false) == m
  {
  }

  // ------------------------------------------------------------ key events

  /** The modifiers after one keyboard event. */
  function ModifiersAfter(m: SuperModifiers, keycode: nat, isDown: bool): SuperModifiers
  {
    match KeycodeToKey(keycode, m)
    case Some(Mod(change)) => UpdateModifiers(m, change, isDown)
    case _ => m
  }

  /** The `Key` event part: one event for a key, none for a modifier or an
      unmapped keycode. */
  function KeyPart(m: SuperModifiers, keycode: nat, isDown: bool): seq<InputEvent>
  {
    match KeycodeToKey(keycode, m)
    case Some(Key(k)) => [KeyEvent(k, isDown, false, ToModifiers(m))]
    case _ => []
  }

  /** The text part, looked up under the updated modifiers. */
  function TextPart(after: SuperModifiers, keycode: nat): seq<InputEvent>
  {
    match KeycodeToText(keycode, after)
    case Some(t) => [Text(t)]
    case None => []
  }

  /** The events pushed for one keyboard event as written: the text is
      pushed on release as well as on press. */
  function KeyEventsAsWritten(m: SuperModifiers, keycode: nat, isDown: bool): seq<InputEvent>
  {
    KeyPart(m, keycode, isDown) + TextPart(ModifiersAfter(m, keycode, isDown), keycode)
  }

  /** The events pushed for one keyboard event, text on press only. */
  function KeyEvents(m: SuperModifiers, keycode: nat, isDown: bool): seq<InputEvent>
  {
    KeyPart(m, keycode, isDown) + (if isDown then TextPart(ModifiersAfter(m, keycode, isDown), keycode) else [])
  }

  /** Every `Key` event is unrepeated and carries the modifiers as they were
      before the event; a modifier key pushes no `Key` event. */
  lemma KeyEventShape(m: SuperModifiers, keycode: nat, isDown: bool)
    ensures |KeyEvents(m, keycode, isDown)| <= 2
    ensures forall e | e in KeyEvents(m, keycode, isDown) && e.KeyEvent? ::
              e.pressed == isDown && !e.repeat && e.modifiers == ToModifiers(m) &&
              KeycodeToKey(keycode, m) == Some(Key(e.key))
    ensures keycode in ModifierKeycodes ==>
              KeyEvents(m, keycode, isDown) == [] && Differences(m, ModifiersAfter(m, keycode, isDown)) <= 1
  {
    if keycode in ModifierKeycodes {
      ModifierKeys(keycode, m);
      var change := KeycodeToKey(keycode, m).value.change;
      UpdateChangesAtMostOneField(m, change, isDown);
    }
  }

  /** A `Text` event is pushed iff the key is pressed and the text table
      has a non-empty entry under the updated modifiers. */
  lemma TextOnPressOnly(m: SuperModifiers, keycode: nat, isDown: bool)
    ensures (exists e :: e in KeyEvents(m, keycode, isDown) && e.Text?)
            <==> isDown && KeycodeToText(keycode, ModifiersAfter(m, keycode, isDown)).Some?
    ensures forall e | e in KeyEvents(m, keycode, isDown) && e.Text? ::
              e.text != "" && Some(e.text) == KeycodeToText(keycode, ModifiersAfter(m, keycode, isDown))
  {
    var evs := KeyEvents(m, keycode, isDown);
    var t := KeycodeToText(keycode, ModifiersAfter(m, keycode, isDown));
    if isDown && t.Some? {
      assert evs[|evs| - 1] == Text(t.value);
    }
  }

  /** The texts of the `Text` events, in order. */
  function Texts(events: seq<InputEvent>): seq<string>
  {
    if events == [] then []
    else (if events[0].Text? then [events[0].text] else []) + Texts(events[1..])
  }

  lemma {:induction false} TextsAppend(a: seq<InputEvent>, b: seq<InputEvent>)
    ensures Texts(a + b) == Texts(a) + Texts(b)
    decreases |a|
  {
    if a != [] {
      assert (a + b)[0] == a[0];
      assert (a + b)[1..] == a[1..] + b;
      TextsAppend(a[1..], b);
    } else {
      assert a + b == b;
    }
  }

  /** As written, pressing and releasing the A key with no modifiers types
      "a" twice. */
  lemma ReleaseTypesAgainAsWritten()
    ensures var down := KeyEventsAsWritten(NoModifiers, 30, true);
            var up := KeyEventsAsWritten(ModifiersAfter(NoModifiers, 30, true), 30, false);
            Texts(down + up) == ["a", "a"]
  {
    var down := KeyEventsAsWritten(NoModifiers, 30, true);
    var up := KeyEventsAsWritten(ModifiersAfter(NoModifiers, 30, true), 30, false);
    assert down == [KeyEvent(A, true, false, ToModifiers(NoModifiers)), Text("a")];
    assert up == [KeyEvent(A, false, false, ToModifiers(NoModifiers)), Text("a")];
    TextsAppend(down, up);
  }

  /** Pressing and then releasing a non-modifier key types its text exactly
      once, or nothing when it has none. */
  lemma PressReleaseTypesOnce(m: SuperModifiers, keycode: nat)
    requires keycode !in ModifierKeycodes
    ensures var events := KeyEvents(m, keycode, true) + KeyEvents(ModifiersAfter(m, keycode, true), keycode, false);
            Texts(events) == (match KeycodeToText(keycode, m) case Some(t) => [t] case None => [])
  {
    ModifierKeys(keycode, m);
    assert ModifiersAfter(m, keycode, true) == m;
    var down := KeyEvents(m, keycode, true);
    var up := KeyEvents(m, keycode, false);
    assert Texts(KeyPart(m, keycode, true)) == [] && Texts(KeyPart(m, keycode, false)) == [];
    TextsAppend(KeyPart(m, keycode, true), TextPart(m, keycode));
    assert up == KeyPart(m, keycode, false) + [];
    TextsAppend(KeyPart(m, keycode, false), []);
    TextsAppend(down, up);
  }

  // ------------------------------------------------------------ the state

  /** The loop's input state: the modifiers, kept across frames, and the
      events gathered for the current frame. */
  class InputState {
    var modifiers: SuperModifiers
    var events: seq<InputEvent>

    /** `SuperModifiers::default()` and an empty event list. */
    constructor ()
      ensures modifiers == NoModifiers && events == []
    {
      modifiers := NoModifiers;
      events := [];
    }

    /** A new frame starts with no events; the modifiers carry over. */
    method NewFrame()
      modifies this
      ensures events == [] && modifiers == old(modifiers)
    {
      events := [];
    }

    /** One keyboard event as written: the `Key` event (under the modifiers
        before the event), the modifier update, then the text under the
        updated modifiers, whether the key went down or up. */
    method HandleKeyAsWritten(keycode: nat, isDown: bool)
      modifies this
      ensures modifiers == ModifiersAfter(old(modifiers), keycode, isDown)
      ensures events == old(events) + KeyEventsAsWritten(old(modifiers), keycode, isDown)
    {
      match KeycodeToKey(keycode, modifiers) {
        case None =>
        case Some(Key(k)) =>
          events := events + [KeyEvent(k, isDown, false, ToModifiers(modifiers))];
        case Some(Mod(change)) =>
          ApplyChange(change, isDown);
      }
      var text := KeycodeToText(keycode, modifiers);
      if text.Some? {
        events := events + [Text(text.value)];
      }
    }

    /** One keyboard event, corrected: as `HandleKeyAsWritten`, but the text
        is pushed on press only. */
    method HandleKey(keycode: nat, isDown: bool)
      modifies this
      ensures modifiers == ModifiersAfter(old(modifiers), keycode, isDown)
      ensures events == old(events) + KeyEvents(old(modifiers), keycode, isDown)
    {
      match KeycodeToKey(keycode, modifiers) {
        case None =>
        case Some(Key(k)) =>
          events := events + [KeyEvent(k, isDown, false, ToModifiers(modifiers))];
        case Some(Mod(change)) =>
          ApplyChange(change, isDown);
      }
      if isDown {
        var text := KeycodeToText(keycode, modifiers);
        if text.Some? {
          events := events + [Text(text.value)];
        }
      }
    }

    /** The modifier update of one `Mod` change, field by field. */
    method ApplyChange(change: SuperModifiers, isDown: bool)
      modifies this
      ensures modifiers == UpdateModifiers(old(modifiers), change, isDown)
      ensures events == old(events)
    {
      if change.left_alt {
        modifiers := modifiers.(left_alt := isDown);
      } else if change.right_alt {
        modifiers := modifiers.(right_alt := isDown);
      } else if change.left_ctrl {
        modifiers := modifiers.(left_ctrl := isDown);
      } else if change.right_ctrl {
        modifiers := modifiers.(right_ctrl := isDown);
      } else if change.left_shift {
        modifiers := modifiers.(left_shift := isDown);
      } else if change.right_shift {
        modifiers := modifiers.(right_shift := isDown);
      } else if isDown {
        if change.caps_lock {
          modifiers := modifiers.(caps_lock := !modifiers.caps_lock);
        } else if change.num_lock {
          modifiers := modifiers.(num_lock := !modifiers.num_lock);
        }
      }
    }

    /** One pointer-button event: a button event for the five known codes,
        nothing for any other. */
    method HandleButton(code: nat, pressed: bool)
      modifies this
      ensures modifiers == old(modifiers)
      ensures ButtonFor(code).None? ==> events == old(events)
      ensures ButtonFor(code).Some? ==>
        events == old(events) + [ButtonEvent(ButtonFor(code).value, pressed, ToModifiers(modifiers))]
    {
      var btn := ButtonFor(code);
      if btn.None? {
        return;
      }
      events := events + [ButtonEvent(btn.value, pressed, ToModifiers(modifiers))];
    }
  }
}
