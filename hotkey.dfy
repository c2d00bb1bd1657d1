/**
 * The global hotkey latch (core/hotkey.py): key-down and key-up events from
 * the keyboard hook move a small state machine and produce at most one
 * notification each: `pressed` when the hotkey latches, `released` when it
 * unlatches, `dismiss` for any other key while dismiss mode is on.
 *
 * The transitions are specified by pure functions on `Latch` values; the
 * `HotkeyListener` class holds the same fields and its handlers are proved to
 * follow them.
 */
module Hotkey {
  import opened Json

  /** The keys the model tells apart; every other key is `Char` or `Other`. */
  datatype Key =
    | AltR | AltGr | AltL | CtrlR | CtrlL | ShiftR | ShiftL
    | Function(n: nat)       // F1 .. F12 and beyond
    | Char(c: char)          // a character key
    | Other(code: int)       // any other special key

  datatype Notice = Pressed | Released | Dismiss

  /** `HOTKEY_MAP`: a configured key name to the keys it matches. The right
      Alt key may be reported as either `alt_r` or `alt_gr`, so both names
      match both keys. */
  const HotkeyMap: map<string, set<Key>> := map[
    "alt_r" := {AltR, AltGr}, "alt_gr" := {AltR, AltGr},
    "alt_l" := {AltL}, "ctrl_r" := {CtrlR}, "ctrl_l" := {CtrlL},
    "shift_r" := {ShiftR}, "shift_l" := {ShiftL},
    "f1" := {Function(1)}, "f2" := {Function(2)}, "f3" := {Function(3)},
    "f4" := {Function(4)}, "f5" := {Function(5)}, "f6" := {Function(6)},
    "f7" := {Function(7)}, "f8" := {Function(8)}, "f9" := {Function(9)},
    "f10" := {Function(10)}, "f11" := {Function(11)}, "f12" := {Function(12)}]

  /** The hotkey's keys; an unknown name falls back to the right Alt key. */
  function TargetKeys(name: string): (keys: set<Key>)
    ensures name in {"alt_r", "alt_gr"} || name !in HotkeyMap ==> keys == {AltR, AltGr}
    ensures keys != {}
  {
    if name in HotkeyMap then HotkeyMap[name] else {AltR, AltGr}
  }

  /** The translate modifier's keys; an unknown name falls back to right Ctrl. */
  function ModifierKeys(name: string): (keys: set<Key>)
    ensures name !in HotkeyMap ==> keys == {CtrlR}
    ensures keys != {}
  {
    if name in HotkeyMap then HotkeyMap[name] else {CtrlR}
  }

  /** The listener's state. */
  datatype Latch = Latch(
    target: set<Key>,
    modifiers: set<Key>,
    isPressed: bool,               // the hotkey is latched
    comboActive: bool,             // the modifier joined the current session
    requestedLastSession: bool,    // the last finished session asked for translation
    pressedKeys: set<Key>,
    dismissMode: bool)

  function Initial(hotkeyName: string, modifierName: string): (s: Latch)
    ensures Inv(s) && !s.isPressed && !s.dismissMode && !s.requestedLastSession
  {
    Latch(TargetKeys(hotkeyName), ModifierKeys(modifierName), false, false, false, {}, false)
  }

  /** The latch is held only while one of the hotkey's keys is down, and a
      session can ask for translation only while latched. */
  predicate Inv(s: Latch)
  {
    (s.comboActive ==> s.isPressed) && (s.isPressed ==> s.target * s.pressedKeys != {})
  }

  /** `_on_press`. */
  function Press(s: Latch, key: Key): (Latch, Option<Notice>)
  {
    var keys := s.pressedKeys + {key};
    if key in s.target then
      if !s.isPressed then
        (s.(pressedKeys := keys, isPressed := true, comboActive := s.modifiers * keys != {}), Some(Pressed))
      else (s.(pressedKeys := keys), None)
    else if s.isPressed && key in s.modifiers then
      (s.(pressedKeys := keys, comboActive := true), None)
    else if s.dismissMode then (s.(pressedKeys := keys), Some(Dismiss))
    else (s.(pressedKeys := keys), None)
  }

  /** `_on_release`. */
  function Release(s: Latch, key: Key): (Latch, Option<Notice>)
  {
    var keys := s.pressedKeys - {key};
    if key in s.target && s.isPressed then
      (s.(pressedKeys := keys, isPressed := false, requestedLastSession := s.comboActive, comboActive := false),
       Some(Released))
    else (s.(pressedKeys := keys), None)
  }

  /** `update_hotkey`. */
  function WithHotkey(s: Latch, hotkeyName: string, modifierName: string): Latch
  {
    s.(target := TargetKeys(hotkeyName), modifiers := ModifierKeys(modifierName),
       isPressed := false, comboActive := false, pressedKeys := {})
  }

  /** `consume_translate_request`: the flag, which is then reset. */
  function Consume(s: Latch): (Latch, bool)
  {
    (s.(requestedLastSession := false), s.requestedLastSession)
  }

  lemma PressPreservesInv(s: Latch, key: Key)
    requires Inv(s)
    ensures Inv(Press(s, key).0)
  {
    var t := Press(s, key).0;
    if key in s.target {
      assert key in t.target * t.pressedKeys;
    } else if s.isPressed {
      var k :| k in s.target * s.pressedKeys;
      assert k in t.target * t.pressedKeys;
    }
  }

  lemma ReleasePreservesInv(s: Latch, key: Key)
    requires Inv(s)
    ensures Inv(Release(s, key).0)
  {
    var t := Release(s, key).0;
    if t.isPressed {
      assert key !in s.target;
      var k :| k in s.target * s.pressedKeys;
      assert k in t.target * t.pressedKeys;
    }
  }

  lemma UpdatePreservesInv(s: Latch, hotkeyName: string, modifierName: string)
    ensures Inv(WithHotkey(s, hotkeyName, modifierName))
    ensures !WithHotkey(s, hotkeyName, modifierName).isPressed
  {
  }

  /** A hotkey key-down while unlatched latches and notifies `pressed` once;
      while latched (key auto-repeat) it changes nothing but the pressed set
      and notifies nothing. */
  lemma TargetDown(s: Latch, key: Key)
    requires key in s.target
    ensures var (t, n) := Press(s, key);
            t.isPressed && t.pressedKeys == s.pressedKeys + {key}
            && (!s.isPressed ==> n == Some(Pressed))
            && (s.isPressed ==> n == None && t == s.(pressedKeys := s.pressedKeys + {key}))
  {
  }

  /** The combo flag is fixed at latch time by whether a modifier key is already
      down, and any later modifier key-down while latched sets it. */
  lemma ComboFlag(s: Latch, key: Key)
    ensures key in s.target && !s.isPressed ==>
              (Press(s, key).0.comboActive <==> exists m :: m in s.modifiers && m in s.pressedKeys + {key})
    ensures key !in s.target && s.isPressed && key in s.modifiers ==> Press(s, key).0.comboActive
  {
    if key in s.target && !s.isPressed {
      var keys := s.pressedKeys + {key};
      if exists m :: m in s.modifiers && m in keys {
        var m :| m in s.modifiers && m in keys;
        assert m in s.modifiers * keys;
      }
    }
  }

  /** Neither a hotkey key-down nor a modifier key-down while latched ever
      notifies `dismiss`, even in dismiss mode; any other key-down notifies
      `dismiss` exactly when dismiss mode is on, and nothing else. */
  lemma DismissOnlyForOtherKeys(s: Latch, key: Key)
    ensures key in s.target || (s.isPressed && key in s.modifiers) ==> Press(s, key).1 != Some(Dismiss)
    ensures key !in s.target && !(s.isPressed && key in s.modifiers) ==>
              (Press(s, key).1 == Some(Dismiss) <==> s.dismissMode) && Press(s, key).1 != Some(Pressed)
              && Press(s, key).0 == s.(pressedKeys := s.pressedKeys + {key})
  {
  }

  /** A hotkey key-up while latched unlatches, hands the combo flag to the
      last-session flag and notifies `released`; a key-up while unlatched
      notifies nothing and only updates the pressed set. */
  lemma KeyUp(s: Latch, key: Key)
    ensures key in s.target && s.isPressed ==>
              var (t, n) := Release(s, key);
              !t.isPressed && t.requestedLastSession == s.comboActive && !t.comboActive && n == Some(Released)
    ensures !s.isPressed ==> Release(s, key) == (s.(pressedKeys := s.pressedKeys - {key}), None)
  {
  }

  /** Reading the translation request resets it: a second read is false. */
  lemma ConsumeTwice(s: Latch)
    ensures var (t, first) := Consume(s);
            first == s.requestedLastSession && Consume(t).1 == false && Consume(t).0 == t
  {
  }

  /** Changing the hotkey drops the latch, the combo flag and the pressed set
      but keeps dismiss mode and the last session's request. */
  lemma UpdateKeeps(s: Latch, hotkeyName: string, modifierName: string)
    ensures var t := WithHotkey(s, hotkeyName, modifierName);
            !t.isPressed && !t.comboActive && t.pressedKeys == {}
            && t.dismissMode == s.dismissMode && t.requestedLastSession == s.requestedLastSession
            && t.target == TargetKeys(hotkeyName) && t.modifiers == ModifierKeys(modifierName)
  {
  }

  /** A key event from the hook. */
  datatype KeyEvent = Down(key: Key) | Up(key: Key)

  function Apply(s: Latch, e: KeyEvent): (Latch, Option<Notice>)
  {
    match e
    case Down(k) => Press(s, k)
    case Up(k) => Release(s, k)
  }

  /** The state after a sequence of key events and the notifications they
      produced, in order. */
  function Replay(s: Latch, events: seq<KeyEvent>): (Latch, seq<Notice>)
    decreases |events|
  {
    if events == [] then (s, [])
    else
      var (t, n) := Apply(s, events[0]);
      var (u, rest) := Replay(t, events[1..]);
      (u, (if n.Some? then [n.value] else []) + rest)
  }

  /** `pressed` and `released` alternate, starting from the given latch
      state; `dismiss` may come between them. */
  predicate Alternates(notices: seq<Notice>, latched: bool)
    decreases |notices|
  {
    notices == []
    || match notices[0]
       case Pressed => !latched && Alternates(notices[1..], true)
       case Released => latched && Alternates(notices[1..], false)
       case Dismiss => Alternates(notices[1..], latched)
  }

  lemma {:induction false} ReplayAlternates(s: Latch, events: seq<KeyEvent>)
    requires Inv(s)
    ensures Alternates(Replay(s, events).1, s.isPressed)
    decreases |events|
  {
    if events != [] {
      var (t, n) := Apply(s, events[0]);
      match events[0] {
        case Down(k) => PressPreservesInv(s, k);
        case Up(k) => ReleasePreservesInv(s, k);
      }
      assert n == Some(Pressed) ==> !s.isPressed && t.isPressed;
      assert n == Some(Released) ==> s.isPressed && !t.isPressed;
      assert n.None? || n == Some(Dismiss) ==> t.isPressed == s.isPressed;
      ReplayAlternates(t, events[1..]);
      var ns := Replay(s, events).1;
      var rest := Replay(t, events[1..]).1;
      if n.Some? {
        assert ns == [n.value] + rest;
        assert ns[1..] == rest;
      } else {
        assert ns == rest;
      }
    }
  }

  /** The listener object; `State` reads its fields as a `Latch`. */
  class HotkeyListener {
    var target: set<Key>
    var modifiers: set<Key>
    var isPressed: bool
    var comboActive: bool
    var requestedLastSession: bool
    var pressedKeys: set<Key>
    var dismissMode: bool

    function State(): Latch
      reads this
    {
      Latch(target, modifiers, isPressed, comboActive, requestedLastSession, pressedKeys, dismissMode)
    }

    constructor(hotkeyName: string, modifierName: string)
      ensures State() == Initial(hotkeyName, modifierName)
    {
      target := TargetKeys(hotkeyName);
      modifiers := ModifierKeys(modifierName);
      isPressed := false;
      comboActive := false;
      requestedLastSession := false;
      pressedKeys := {};
      dismissMode := false;
    }

    method UpdateHotkey(hotkeyName: string, modifierName: string)
      modifies this
      ensures State() == WithHotkey(old(State()), hotkeyName, modifierName)
    {
      target := TargetKeys(hotkeyName);
      modifiers := ModifierKeys(modifierName);
      isPressed := false;
      comboActive := false;
      pressedKeys := {};
    }

    method ConsumeTranslateRequest() returns (value: bool)
      modifies this
      ensures (State(), value) == Consume(old(State()))
    {
      value := requestedLastSession;
      requestedLastSession := false;
    }

    method SetDismissMode(enabled: bool)
      modifies this`dismissMode
      ensures dismissMode == enabled
    {
      dismissMode := enabled;
    }

    method OnPress(key: Key) returns (notice: Option<Notice>)
      modifies this
      ensures (State(), notice) == Press(old(State()), key)
    {
      pressedKeys := pressedKeys + {key};
      notice := None;
      if key in target {
        if !isPressed {
          isPressed := true;
          comboActive := modifiers * pressedKeys != {};
          notice := Some(Pressed);
        }
        return;
      }
      if isPressed && key in modifiers {
        comboActive := true;
        return;
      }
      if dismissMode {
        notice := Some(Dismiss);
      }
    }

    method OnRelease(key: Key) returns (notice: Option<Notice>)
      modifies this
      ensures (State(), notice) == Release(old(State()), key)
    {
      pressedKeys := pressedKeys - {key};
      notice := None;
      if key in target && isPressed {
        isPressed := false;
        requestedLastSession := comboActive;
        comboActive := false;
        notice := Some(Released);
      }
    }
  }
}
