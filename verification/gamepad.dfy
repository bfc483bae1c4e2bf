/** The gamepad tracker: a connection state machine over one gamepad, the
    per-read timestamp reconciliation that marks the gamepad as preferred,
    button queries (level and one-shot trigger, by number, alias or the
    wildcard "*"), stick queries and the vibration forwarding decision. */
module GamepadInput {
  import opened Common

  /** The vibration actuator of a gamepad; `kind` is its `type`. */
  datatype Actuator = Actuator(kind: string)

  /** One entry of the platform's gamepad list at the moment of a read. */
  datatype Snapshot = Snapshot(
    buttons: seq<bool>,  // the `pressed` flag of each button
    axes: seq<real>,
    connected: bool,
    timestamp: real,
    mapping: string,
    actuator: Option<Actuator>)

  /** The gamepad carried by a connect or disconnect event. */
  datatype PadEvent = PadEvent(index: int, mapping: string)

  // ---------------------------------------------------------------------
  // Sticks

  /** `title` is the source's `label` (a reserved word in Dafny). */
  datatype Stick = Stick(title: string, xAxis: int, yAxis: int)

  /** The control `stick(...)` returns carries no gamepad mark. */
  const StickFromGamepad: Option<bool> := None

  /** A stick is asked for by preset name or given outright. */
  datatype StickId = Preset(name: string) | Custom(stick: Stick)

  const LeftStick := Stick("Left stick", 0, 1)
  const RightStick := Stick("Right stick", 2, 3)

  /** The stick a `stick(...)` call reads: the two presets, or the
      caller's own axes; any other preset name throws. */
  function FindStick(id: StickId): (r: Result<Stick>)
    ensures id.Custom? ==> r == Ok(id.stick)
    ensures id.Preset? ==> (r.Ok? <==> id.name == "left" || id.name == "right")
    ensures id == Preset("left") ==> r == Ok(Stick("Left stick", 0, 1))
    ensures id == Preset("right") ==> r == Ok(Stick("Right stick", 2, 3))
    ensures r.Err? ==> id.Preset? && r.error == Thrown("Gamepad stick \"" + id.name + "\" not found!")
  {
    match id
    case Custom(s) => Ok(s)
    case Preset(name) =>
      if name == "left" then Ok(LeftStick)
      else if name == "right" then Ok(RightStick)
      else Err(Thrown("Gamepad stick \"" + name + "\" not found!"))
  }

  /** What JavaScript's `name in gamepadSticks` finds on the presets object:
      an own preset, a member inherited from Object.prototype, or nothing. */
  datatype PresetLookup = OwnPreset(stick: Stick) | InheritedMember | NoPreset

  /** The preset lookup as written: the `in` test also accepts inherited
      names, so only names found nowhere on the object throw. */
  function StickPresetAsWritten(name: string): (r: PresetLookup)
    ensures r.NoPreset? <==> name != "left" && name != "right" && name !in ObjectPrototypeKeys
    ensures r.OwnPreset? ==> FindStick(Preset(name)) == Ok(r.stick)
  {
    if name == "left" then OwnPreset(LeftStick)
    else if name == "right" then OwnPreset(RightStick)
    else if name in ObjectPrototypeKeys then InheritedMember
    else NoPreset
  }

  /** `stick("constructor")` does not throw as written, while the preset
      lookup the model uses rejects it. */
  lemma InheritedStickNameAccepted()
    ensures StickPresetAsWritten("constructor") == InheritedMember
    ensures FindStick(Preset("constructor")).Err?
  {
    var name := "constructor";
    assert name in ObjectPrototypeKeys;
    assert |name| != |"left"| && |name| != |"right"|;
  }

  /** One coordinate of a stick reading. Reading an axis outside the
      snapshot's axes gives `undefined`, which the vector's constructor
      replaces by its default coordinate 0. */
  function AxisAt(axes: seq<real>, i: int): (r: real)
    ensures 0 <= i < |axes| ==> r == axes[i]
    ensures !(0 <= i < |axes|) ==> r == 0.0
  {
    if 0 <= i < |axes| then axes[i] else 0.0
  }

  // ---------------------------------------------------------------------
  // Buttons

  /** A button is asked for by number or by name; the name "*" is the
      wildcard. */
  datatype ButtonId = Index(number: int) | Name(name: string)

  /** The gamepad alias tables: button names to numbers, numbers to labels. */
  datatype ButtonMap = ButtonMap(numbers: map<string, int>, labels: map<int, string>)

  /** Resolves a button id to its number: numbers pass unchanged, names go
      through the alias table and an unknown name throws. */
  function FindButtonNumber(id: ButtonId, table: ButtonMap): (r: Result<int>)
    ensures id.Index? ==> r == Ok(id.number)
    ensures id.Name? ==> (r.Ok? <==> id.name in table.numbers)
    ensures id.Name? && r.Ok? ==> r.value == table.numbers[id.name]
    ensures r.Err? ==> id.Name? && r.error == Thrown("There is no gamepad button called \"" + id.name + "\"!")
  {
    match id
    case Index(n) => Ok(n)
    case Name(s) =>
      if s in table.numbers then Ok(table.numbers[s])
      else Err(Thrown("There is no gamepad button called \"" + s + "\"!"))
  }

  /** The control `button(...)` returns: the wildcard, or one button with
      its label. */
  datatype ButtonControl = AnyButton | NumberedButton(number: int, title: string)
  {
    function Label(): string {
      match this
      case AnyButton => "Any button"
      case NumberedButton(_, title) => title
    }

    /** A button control and its trigger are marked as gamepad controls,
        the mark `or` reads to choose its label. */
    function FromGamepad(): Option<bool> {
      Some(true)
    }
  }

  /** Whether some button of a snapshot is pressed. */
  predicate SomePressed(buttons: seq<bool>) {
    true in buttons
  }

  /** What a level query of a connected gamepad returns for one snapshot. */
  function Level(c: ButtonControl, s: Snapshot): (r: Result<bool>)
    ensures c.AnyButton? ==> r == Ok(exists i :: 0 <= i < |s.buttons| && s.buttons[i])
    ensures c.NumberedButton? ==> (r.Ok? <==> 0 <= c.number < |s.buttons|)
    ensures c.NumberedButton? && r.Ok? ==> r.value == s.buttons[c.number]
    ensures r.Err? ==> r.error == TypeError
  {
    match c
    case AnyButton => Ok(SomePressed(s.buttons))
    case NumberedButton(n, _) =>
      if 0 <= n < |s.buttons| then Ok(s.buttons[n]) else Err(TypeError)
  }

  // ---------------------------------------------------------------------
  // Timestamp reconciliation

  /** The last-seen timestamp and the preference flag after reading a
      snapshot stamped `stamp`: a newer stamp is adopted and forces the
      preference to the gamepad; an older or equal one changes nothing. */
  function Reconcile(seen: real, prefer: bool, stamp: real): (r: (real, bool))
    ensures r.0 >= seen && r.0 >= stamp
    ensures r.0 == seen || r.0 == stamp
    ensures r.1 <==> prefer || stamp > seen
    ensures r.0 != seen ==> r.1
  {
    if stamp > seen then (stamp, true) else (seen, prefer)
  }

  /** Reading the same snapshot again changes nothing more. */
  lemma ReconcileIdempotent(seen: real, prefer: bool, stamp: real)
    ensures var r := Reconcile(seen, prefer, stamp);
            Reconcile(r.0, r.1, stamp) == r
  {
  }

  // ---------------------------------------------------------------------
  // Vibration

  datatype VibrationOptions = VibrationOptions(weakMagnitude: Option<real>, strongMagnitude: Option<real>)

  /** The call `vibrate` forwards to the actuator's `playEffect`. */
  datatype Effect = Effect(kind: string, duration: real, strongMagnitude: Option<real>, weakMagnitude: Option<real>)

  predicate DualRumble(a: Option<Actuator>) {
    a.Some? && a.value.kind == "dual-rumble"
  }

  // ---------------------------------------------------------------------
  // The tracker

  class Gamepad {
    const store: Store
    const table: ButtonMap

    /** Buttons whose press a trigger query has already reported. */
    var pressedButtons: set<int>
    /** The tracked gamepad: None while disconnected. */
    var gamepadIndex: Option<int>
    /** The newest snapshot timestamp seen so far. */
    var gamepadTimestamp: real

    constructor (store: Store, table: ButtonMap)
      ensures this.store == store && this.table == table
      ensures pressedButtons == {} && gamepadIndex == None && gamepadTimestamp == 0.0
    {
      this.store := store;
      this.table := table;
      pressedButtons := {};
      gamepadIndex := None;
      gamepadTimestamp := 0.0;
    }

    /** The snapshot of the tracked gamepad in `pads`, if there is one. */
    ghost function Current(pads: map<int, Snapshot>): Option<Snapshot>
      reads this
    {
      if gamepadIndex.Some? && gamepadIndex.value in pads then Some(pads[gamepadIndex.value]) else None
    }

    /** What `isConnected()` returns against `pads`. */
    ghost function Connection(pads: map<int, Snapshot>): Result<bool>
      reads this
    {
      if gamepadIndex.None? then Ok(false)
      else if gamepadIndex.value !in pads then Err(TypeError)
      else Ok(pads[gamepadIndex.value].connected)
    }

    /** The last-seen timestamp and the preference flag once the tracked
        snapshot in `pads` has been read (unchanged when there is none). */
    ghost function AfterRead(pads: map<int, Snapshot>): (real, bool)
      reads this, store
    {
      match Current(pads)
      case None => (gamepadTimestamp, store.preferGamepad)
      case Some(s) => Reconcile(gamepadTimestamp, store.preferGamepad, s.timestamp)
    }

    /** `gamepadconnected`: ignored while a gamepad is connected (which is
        itself a read of the snapshot) and for a non-standard mapping;
        otherwise the event's gamepad becomes the tracked one and the
        preference moves to the gamepad. */
    method OnConnected(pads: map<int, Snapshot>, e: PadEvent) returns (r: Outcome)
      modifies this`gamepadIndex, this`gamepadTimestamp, store`preferGamepad
      ensures gamepadTimestamp == old(AfterRead(pads)).0
      ensures gamepadTimestamp >= old(gamepadTimestamp)
      ensures old(Connection(pads)).Err? ==>
                r == Failed(old(Connection(pads)).error) && gamepadIndex == old(gamepadIndex)
                && store.preferGamepad == old(store.preferGamepad)
      ensures old(Connection(pads)) == Ok(true) ==>
                r == Done && gamepadIndex == old(gamepadIndex)
                && store.preferGamepad == old(AfterRead(pads)).1
      ensures old(Connection(pads)) == Ok(false) && e.mapping == "standard" ==>
                r == Done && gamepadIndex == Some(e.index) && store.preferGamepad
      ensures old(Connection(pads)) == Ok(false) && e.mapping != "standard" ==>
                r == Done && gamepadIndex == old(gamepadIndex)
                && store.preferGamepad == old(AfterRead(pads)).1
    {
      var connected := IsConnected(pads);
      match connected
      case Err(err) =>
        return Failed(err);
      case Ok(c) =>
        if c {
          return Done;
        }
        if e.mapping == "standard" {
          gamepadIndex := Some(e.index);
          store.preferGamepad := true;
        }
        return Done;
    }

    /** `gamepaddisconnected`: only the tracked gamepad's disconnect has an
        effect; it forgets the gamepad and moves the preference away. */
    method OnDisconnected(e: PadEvent)
      modifies this`gamepadIndex, store`preferGamepad
      ensures old(gamepadIndex) == Some(e.index) ==> gamepadIndex == None && !store.preferGamepad
      ensures old(gamepadIndex) != Some(e.index) ==>
                gamepadIndex == old(gamepadIndex) && store.preferGamepad == old(store.preferGamepad)
    {
      if gamepadIndex != Some(e.index) {
        return;
      }
      gamepadIndex := None;
      store.preferGamepad := false;
    }

    /** The `gamepad` getter: fetches the tracked snapshot and reconciles
        its timestamp. */
    method Poll(pads: map<int, Snapshot>) returns (r: Result<Snapshot>)
      modifies this`gamepadTimestamp, store`preferGamepad
      ensures (gamepadTimestamp, store.preferGamepad) == old(AfterRead(pads))
      ensures gamepadTimestamp >= old(gamepadTimestamp)
      ensures gamepadIndex.None? ==> r == Err(Thrown("No gamepad connected"))
      ensures gamepadIndex.Some? && gamepadIndex.value !in pads ==> r == Err(TypeError)
      ensures gamepadIndex.Some? && gamepadIndex.value in pads ==> r == Ok(pads[gamepadIndex.value])
    {
      if gamepadIndex.None? {
        return Err(Thrown("No gamepad connected"));
      }
      var index := gamepadIndex.value;
      if index !in pads {
        return Err(TypeError);
      }
      var pad := pads[index];
      if pad.timestamp > gamepadTimestamp {
        store.preferGamepad := true;
        gamepadTimestamp := pad.timestamp;
      }
      return Ok(pad);
    }

    /** `isConnected()`: a gamepad is tracked and its snapshot says it is
        connected; reading the snapshot reconciles the timestamp. */
    method IsConnected(pads: map<int, Snapshot>) returns (r: Result<bool>)
      modifies this`gamepadTimestamp, store`preferGamepad
      ensures r == old(Connection(pads))
      ensures (gamepadTimestamp, store.preferGamepad) == old(AfterRead(pads))
    {
      if gamepadIndex.None? {
        return Ok(false);
      }
      var pad := Poll(pads);
      match pad
      case Err(err) =>
        return Err(err);
      case Ok(s) =>
        return Ok(s.connected);
    }

    /** Reads the tracked snapshot once more after `IsConnected` returned
        true; the second read changes nothing. */
    method Reread(pads: map<int, Snapshot>) returns (s: Snapshot)
      requires Connection(pads) == Ok(true)
      requires (gamepadTimestamp, store.preferGamepad) == AfterRead(pads)
      modifies this`gamepadTimestamp, store`preferGamepad
      ensures Current(pads) == Some(s)
      ensures gamepadTimestamp == old(gamepadTimestamp) && store.preferGamepad == old(store.preferGamepad)
    {
      ReconcileIdempotent(gamepadTimestamp, store.preferGamepad, pads[gamepadIndex.value].timestamp);
      var pad := Poll(pads);
      match pad
      case Ok(p) =>
        s := p;
    }

    /** `button(id)`: the wildcard, or the numbered button with its label;
        an unknown alias or a missing label throws. */
    function Button(id: ButtonId): (r: Result<ButtonControl>)
      ensures id == Name("*") ==> r == Ok(AnyButton)
      ensures id != Name("*") && FindButtonNumber(id, table).Err? ==> r == Err(FindButtonNumber(id, table).error)
      ensures id != Name("*") && FindButtonNumber(id, table).Ok? ==>
                var n := FindButtonNumber(id, table).value;
                (r.Ok? <==> n in table.labels) && (r.Ok? ==> r.value == NumberedButton(n, table.labels[n]))
      ensures r.Err? && id != Name("*") && FindButtonNumber(id, table).Ok? ==> r.error == TableMiss
    {
      if id == Name("*") then Ok(AnyButton)
      else match FindButtonNumber(id, table)
        case Err(e) => Err(e)
        case Ok(n) => if n in table.labels then Ok(NumberedButton(n, table.labels[n])) else Err(TableMiss)
    }

    /** `button(id).query()`: false while not connected, otherwise the
        button's (or, for the wildcard, some button's) pressed state. */
    method ButtonQuery(c: ButtonControl, pads: map<int, Snapshot>) returns (r: Result<bool>)
      modifies this`gamepadTimestamp, store`preferGamepad
      ensures (gamepadTimestamp, store.preferGamepad) == old(AfterRead(pads))
      ensures old(Connection(pads)).Err? ==> r == old(Connection(pads))
      ensures old(Connection(pads)) == Ok(false) ==> r == Ok(false)
      ensures old(Connection(pads)) == Ok(true) ==> r == Level(c, old(Current(pads)).value)
    {
      var connected := IsConnected(pads);
      match connected
      case Err(err) =>
        return Err(err);
      case Ok(isConnected) =>
        if !isConnected {
          return Ok(false);
        }
        var s := Reread(pads);
        return Level(c, s);
    }

    /** `button(n).trigger.query()` for a numbered button: reports a press
        once; releasing the button re-arms it. */
    method ButtonTrigger(n: int, pads: map<int, Snapshot>) returns (r: Result<bool>)
      modifies this`pressedButtons, this`gamepadTimestamp, store`preferGamepad
      ensures (gamepadTimestamp, store.preferGamepad) == old(AfterRead(pads))
      ensures old(Connection(pads)).Err? ==> r == old(Connection(pads)) && pressedButtons == old(pressedButtons)
      ensures old(Connection(pads)) == Ok(false) ==> r == Ok(false) && pressedButtons == old(pressedButtons)
      ensures old(Connection(pads)) == Ok(true) ==>
                var s := old(Current(pads)).value;
                if 0 <= n < |s.buttons| then
                  && r.Ok?
                  && (r.value <==> s.buttons[n] && n !in old(pressedButtons))
                  && (n in pressedButtons <==> s.buttons[n])
                  && pressedButtons - {n} == old(pressedButtons) - {n}
                else
                  r == Err(TypeError) && pressedButtons == old(pressedButtons)
    {
      var connected := IsConnected(pads);
      match connected
      case Err(err) =>
        return Err(err);
      case Ok(isConnected) =>
        if !isConnected {
          return Ok(false);
        }
        var s := Reread(pads);
        if !(0 <= n < |s.buttons|) {
          return Err(TypeError);
        }
        if s.buttons[n] {
          if n in pressedButtons {
            return Ok(false);
          }
          pressedButtons := pressedButtons + {n};
          return Ok(true);
        }
        pressedButtons := pressedButtons - {n};
        return Ok(false);
    }

    /** `button('*').trigger.query()`: true when some button is pressed and
        no press is on record; it never records one, and it clears the
        record once nothing is pressed. */
    method AnyButtonTrigger(pads: map<int, Snapshot>) returns (r: Result<bool>)
      modifies this`pressedButtons, this`gamepadTimestamp, store`preferGamepad
      ensures (gamepadTimestamp, store.preferGamepad) == old(AfterRead(pads))
      ensures old(Connection(pads)).Err? ==> r == old(Connection(pads)) && pressedButtons == old(pressedButtons)
      ensures old(Connection(pads)) == Ok(false) ==> r == Ok(false) && pressedButtons == old(pressedButtons)
      ensures old(Connection(pads)) == Ok(true) ==>
                var pressed := SomePressed(old(Current(pads)).value.buttons);
                && r == Ok(pressed && old(pressedButtons) == {})
                && pressedButtons == (if pressed then old(pressedButtons) else {})
    {
      var connected := IsConnected(pads);
      match connected
      case Err(err) =>
        return Err(err);
      case Ok(isConnected) =>
        if !isConnected {
          return Ok(false);
        }
        var s := Reread(pads);
        var pressed := SomePressed(s.buttons);
        if pressed {
          if |pressedButtons| == 0 {
            return Ok(true);
          }
        } else {
          pressedButtons := {};
        }
        return Ok(false);
    }

    /** `stick(...).query()`: the zero vector while not connected, otherwise
        the two axes of the stick (each 0 when out of range). */
    method StickQuery(stick: Stick, pads: map<int, Snapshot>) returns (r: Result<Vector2>)
      modifies this`gamepadTimestamp, store`preferGamepad
      ensures (gamepadTimestamp, store.preferGamepad) == old(AfterRead(pads))
      ensures old(Connection(pads)).Err? ==> r == Err(old(Connection(pads)).error)
      ensures old(Connection(pads)) == Ok(false) ==> r == Ok(ZeroVector)
      ensures old(Connection(pads)) == Ok(true) ==>
                var axes := old(Current(pads)).value.axes;
                r == Ok(Vector2(AxisAt(axes, stick.xAxis), AxisAt(axes, stick.yAxis)))
    {
      var connected := IsConnected(pads);
      match connected
      case Err(err) =>
        return Err(err);
      case Ok(isConnected) =>
        if !isConnected {
          return Ok(ZeroVector);
        }
        var sx := Reread(pads);
        var sy := Reread(pads);
        return Ok(Vector2(AxisAt(sx.axes, stick.xAxis), AxisAt(sy.axes, stick.yAxis)));
    }

    /** `vibrate(duration, options)`: the effect forwarded to the actuator,
        if any. Forwarding happens only for a connected gamepad whose
        actuator is of type "dual-rumble". */
    method Vibrate(duration: real, options: VibrationOptions, pads: map<int, Snapshot>) returns (r: Result<Option<Effect>>)
      modifies this`gamepadTimestamp, store`preferGamepad
      ensures (gamepadTimestamp, store.preferGamepad) == old(AfterRead(pads))
      ensures old(Connection(pads)).Err? ==> r == Err(old(Connection(pads)).error)
      ensures old(Connection(pads)).Ok? ==> r.Ok?
      ensures r.Ok? ==>
                (r.value.Some? <==> old(Connection(pads)) == Ok(true) && DualRumble(old(Current(pads)).value.actuator))
      ensures r.Ok? && r.value.Some? ==>
                r.value.value == Effect("dual-rumble", duration, options.strongMagnitude, options.weakMagnitude)
    {
      var connected := IsConnected(pads);
      match connected
      case Err(err) =>
        return Err(err);
      case Ok(isConnected) =>
        if !isConnected {
          return Ok(None);
        }
        var s := Reread(pads);
        var actuator := s.actuator;
        if actuator.None? || actuator.value.kind != "dual-rumble" {
          return Ok(None);
        }
        return Ok(Some(Effect("dual-rumble", duration, options.strongMagnitude, options.weakMagnitude)));
    }
  }
}
