/**
 * The key-binding table: for each game action, the list of inputs bound to
 * it, with the first one shown as the action's primary binding.
 */
module KeyBindings {
  import opened Wrappers
  import opened Collections

  datatype GameAction =
    | CameraMoveUp | CameraMoveDown | CameraMoveLeft | CameraMoveRight
    | CameraZoomIn | CameraZoomOut | CameraPan
    | TogglePhotoMode | TakePhoto | PhotoModeSettings
    | OpenJournal | OpenSettings | CloseMenu | PauseGame
    | PlaceFeeder | RemoveObject | QuickSave | QuickLoad

  /** A keyboard key, known by the name its debug form prints. */
  datatype KeyCode = KeyCode(debugName: string)

  datatype MouseButton = Left | Right | Middle | Back | Forward

  datatype InputBinding =
    | Keyboard(key: KeyCode)
    | Mouse(button: MouseButton)
    | MouseWheelUp
    | MouseWheelDown

  /** The bindings a fresh table holds: one input per action. */
  function DefaultBindings(): (m: map<GameAction, seq<InputBinding>>)
    ensures forall a :: a in m ==> |m[a]| == 1
  {
    map[
      CameraMoveUp := [Keyboard(KeyCode("KeyW"))],
      CameraMoveDown := [Keyboard(KeyCode("KeyS"))],
      CameraMoveLeft := [Keyboard(KeyCode("KeyA"))],
      CameraMoveRight := [Keyboard(KeyCode("KeyD"))],
      CameraZoomIn := [MouseWheelUp],
      CameraZoomOut := [MouseWheelDown],
      CameraPan := [Mouse(Middle)],
      TogglePhotoMode := [Keyboard(KeyCode("KeyP"))],
      TakePhoto := [Keyboard(KeyCode("Space"))],
      PhotoModeSettings := [Keyboard(KeyCode("KeyF"))],
      OpenJournal := [Keyboard(KeyCode("Tab"))],
      OpenSettings := [Keyboard(KeyCode("Escape"))],
      CloseMenu := [Keyboard(KeyCode("Escape"))],
      PauseGame := [Keyboard(KeyCode("Escape"))],
      PlaceFeeder := [Keyboard(KeyCode("KeyF"))],
      RemoveObject := [Keyboard(KeyCode("Delete"))],
      QuickSave := [Keyboard(KeyCode("F5"))],
      QuickLoad := [Keyboard(KeyCode("F9"))]
    ]
  }

  /** Every action starts with exactly one binding. */
  lemma DefaultBindsEveryActionOnce(a: GameAction)
    ensures a in DefaultBindings() && |DefaultBindings()[a]| == 1
  {
  }

  /** The first binding of a list, if any. */
  function Primary(list: seq<InputBinding>): (r: Option<InputBinding>)
    ensures r.None? <==> list == []
    ensures r.Some? ==> r.value == list[0] && r.value in list
  {
    if list == [] then None else Some(list[0])
  }

  /** Appending a binding leaves an existing primary in place, and makes the new one primary of an empty list. */
  lemma AppendKeepsPrimary(list: seq<InputBinding>, b: InputBinding)
    ensures list != [] ==> Primary(list + [b]) == Primary(list)
    ensures list == [] ==> Primary(list + [b]) == Some(b)
  {
  }

  /** Vec::retain with `b != binding`: the list without any copy of the binding, in order. */
  function Without(list: seq<InputBinding>, binding: InputBinding): (r: seq<InputBinding>)
    ensures |r| <= |list|
    ensures forall b :: b in r <==> b in list && b != binding
  {
    Filter(list, b => b != binding)
  }

  /** Removing a binding right after adding it leaves the list as removal alone would. */
  lemma RemoveUndoesAdd(list: seq<InputBinding>, binding: InputBinding)
    ensures Without(list + [binding], binding) == Without(list, binding)
  {
    FilterAppend(list, [binding], b => b != binding);
    assert Filter([binding], b => b != binding) == [];
  }

  /** Removing a binding that is not in the list leaves the list alone. */
  lemma {:induction false} RemoveAbsentIsIdentity(list: seq<InputBinding>, binding: InputBinding)
    requires binding !in list
    ensures Without(list, binding) == list
  {
    if list != [] {
      var n := |list| - 1;
      assert list[..n] + [list[n]] == list;
      RemoveAbsentIsIdentity(list[..n], binding);
      FilterAppend(list[..n], [list[n]], b => b != binding);
    }
  }

  /** How an input shows on screen. */
  function BindingName(b: InputBinding): (n: string)
    ensures b.Keyboard? ==> n == b.key.debugName
    ensures !b.Keyboard? ==> |n| > 0
  {
    match b
    case Keyboard(key) => key.debugName
    case Mouse(button) =>
      (match button
       case Left => "Left"
       case Right => "Right"
       case Middle => "Middle"
       case Back => "Back"
       case Forward => "Forward")
    case MouseWheelUp => "Mouse Wheel Up"
    case MouseWheelDown => "Mouse Wheel Down"
  }

  /** Whether a binding is held now: keys and buttons by the held sets; the wheel never counts here. */
  predicate Held(b: InputBinding, keys: set<KeyCode>, buttons: set<MouseButton>)
  {
    match b
    case Keyboard(key) => key in keys
    case Mouse(button) => button in buttons
    case _ => false
  }

  class KeyBindingTable {
    var bindings: map<GameAction, seq<InputBinding>>

    constructor Default()
      ensures bindings == DefaultBindings()
    {
      bindings := DefaultBindings();
    }

    /**
     * is_action_pressed / is_action_just_pressed: scan the action's bindings
     * for one that the given key and button sets hold. The two differ only in
     * which sets the caller passes.
     */
    method IsActionActive(action: GameAction, keys: set<KeyCode>, buttons: set<MouseButton>) returns (active: bool)
      ensures active <==>
        action in bindings && exists k :: 0 <= k < |bindings[action]| && Held(bindings[action][k], keys, buttons)
      ensures action !in bindings || bindings[action] == [] ==> !active
    {
      if action !in bindings {
        return false;
      }
      var list := bindings[action];
      for i := 0 to |list|
        invariant forall k :: 0 <= k < i ==> !Held(list[k], keys, buttons)
      {
        match list[i] {
          case Keyboard(key) =>
            if key in keys {
              return true;
            }
          case Mouse(button) =>
            if button in buttons {
              return true;
            }
          case _ =>
        }
      }
      return false;
    }

    /** The action's bindings, or none for an action without an entry. */
    function BindingsOf(action: GameAction): seq<InputBinding>
      reads this
    {
      if action in bindings then bindings[action] else []
    }

    /** add_binding: append to the action's list, creating it if absent; other actions untouched. */
    method AddBinding(action: GameAction, binding: InputBinding)
      modifies this
      ensures bindings == old(bindings)[action := old(BindingsOf(action)) + [binding]]
      ensures BindingsOf(action) == old(BindingsOf(action)) + [binding]
      ensures forall a :: a != action ==> BindingsOf(a) == old(BindingsOf(a))
    {
      if action in bindings {
        bindings := bindings[action := bindings[action] + [binding]];
      } else {
        assert [] + [binding] == [binding];
        bindings := bindings[action := [binding]];
      }
    }

    /** remove_binding: drop every copy of the binding from the action's list, if it has one. */
    method RemoveBinding(action: GameAction, binding: InputBinding)
      modifies this
      ensures action in old(bindings) ==> bindings == old(bindings)[action := Without(old(bindings)[action], binding)]
      ensures action !in old(bindings) ==> bindings == old(bindings)
      ensures binding !in BindingsOf(action)
      ensures forall a :: a != action ==> BindingsOf(a) == old(BindingsOf(a))
    {
      if action in bindings {
        bindings := bindings[action := Without(bindings[action], binding)];
      }
    }

    /** clear_action_bindings: the action keeps an empty list. */
    method ClearActionBindings(action: GameAction)
      modifies this
      ensures bindings == old(bindings)[action := []]
      ensures GetPrimaryBinding(action) == None && GetDisplayString(action) == "Unbound"
    {
      bindings := bindings[action := []];
    }

    /** get_primary_binding: the first binding of the action, if it has one. */
    function GetPrimaryBinding(action: GameAction): (r: Option<InputBinding>)
      reads this
      ensures r.None? <==> BindingsOf(action) == []
      ensures r.Some? ==> r.value == BindingsOf(action)[0]
    {
      if action in bindings then Primary(bindings[action]) else None
    }

    /** get_display_string: the primary binding's name, or "Unbound". */
    function GetDisplayString(action: GameAction): (s: string)
      reads this
      ensures GetPrimaryBinding(action).None? ==> s == "Unbound"
      ensures GetPrimaryBinding(action).Some? ==> s == BindingName(GetPrimaryBinding(action).value)
    {
      match GetPrimaryBinding(action)
      case None => "Unbound"
      case Some(b) => BindingName(b)
    }
  }
}
