/** Short input sessions against fresh trackers, following the behaviour
    the library's own test suite describes: connecting and disconnecting a
    gamepad, one-shot triggers, the wildcard controls, directional keys,
    draining accumulators and the `or` combinator. */
module Scenarios {
  import opened Common
  import G = GamepadInput
  import K = KeyboardInput
  import M = MouseInput
  import C = Combinators

  // ---------------------------------------------------------------------
  // Gamepad

  /** A standard gamepad at index `index` with one button and four axes. */
  function Pad(index: int, pressed: bool, stamp: real): (p: G.Snapshot)
    ensures p.connected && p.mapping == "standard" && |p.buttons| == 1 && |p.axes| == 4
  {
    G.Snapshot([pressed], [0.56, 0.31, 0.42, 0.69], true, stamp, "standard", Some(G.Actuator("dual-rumble")))
  }

  /** Not connected before any event; connected after a standard connect;
      a second gamepad neither takes over nor, by disconnecting, ends the
      session; the tracked gamepad's disconnect does. */
  method GamepadConnection() returns (before: Result<bool>, during: Result<bool>, pressedOther: Result<bool>,
                                      afterOther: Result<bool>, afterOwn: Result<bool>, prefer: bool)
    ensures before == Ok(false)
    ensures during == Ok(true)
    ensures pressedOther == Ok(false)
    ensures afterOther == Ok(true)
    ensures afterOwn == Ok(false) && !prefer
  {
    var store := new Store();
    var gamepad := new G.Gamepad(store, G.ButtonMap(map[], map[]));
    before := gamepad.IsConnected(map[]);
    var pads := map[0 := Pad(0, false, 0.0)];
    var outcome := gamepad.OnConnected(pads, G.PadEvent(0, "standard"));
    during := gamepad.IsConnected(pads);
    pads := pads[1 := Pad(1, true, 0.0)];
    outcome := gamepad.OnConnected(pads, G.PadEvent(1, "standard"));
    pressedOther := gamepad.ButtonQuery(G.NumberedButton(0, "A"), pads);
    gamepad.OnDisconnected(G.PadEvent(1, "standard"));
    afterOther := gamepad.IsConnected(pads);
    gamepad.OnDisconnected(G.PadEvent(0, "standard"));
    afterOwn := gamepad.IsConnected(pads);
    prefer := store.preferGamepad;
  }

  /** A gamepad with a non-standard mapping is not tracked. */
  method NonStandardIgnored() returns (connected: Result<bool>, prefer: bool)
    ensures connected == Ok(false) && !prefer
  {
    var store := new Store();
    var gamepad := new G.Gamepad(store, G.ButtonMap(map[], map[]));
    var pads := map[0 := Pad(0, false, 0.0).(mapping := "non-standard")];
    var outcome := gamepad.OnConnected(pads, G.PadEvent(0, "non-standard"));
    connected := gamepad.IsConnected(pads);
    prefer := store.preferGamepad;
  }

  /** While disconnected, queries answer with their zero values. */
  method DisconnectedQueries() returns (level: Result<bool>, fired: Result<bool>, stick: Result<Vector2>,
                                        effect: Result<Option<G.Effect>>)
    ensures level == Ok(false) && fired == Ok(false)
    ensures stick == Ok(ZeroVector)
    ensures effect == Ok(None)
  {
    var store := new Store();
    var gamepad := new G.Gamepad(store, G.ButtonMap(map[], map[]));
    level := gamepad.ButtonQuery(G.NumberedButton(0, "A"), map[]);
    fired := gamepad.ButtonTrigger(0, map[]);
    stick := gamepad.StickQuery(G.LeftStick, map[]);
    effect := gamepad.Vibrate(1000.0, G.VibrationOptions(None, None), map[]);
  }

  /** A held button's trigger fires once; releasing it re-arms it. A newer
      snapshot makes the gamepad preferred again. */
  method GamepadTriggerOnce() returns (first: Result<bool>, second: Result<bool>, released: Result<bool>,
                                       again: Result<bool>, prefer: bool)
    ensures first == Ok(true) && second == Ok(false) && released == Ok(false) && again == Ok(true)
    ensures prefer
  {
    var store := new Store();
    var gamepad := new G.Gamepad(store, G.ButtonMap(map[], map[]));
    var outcome := gamepad.OnConnected(map[0 := Pad(0, false, 0.0)], G.PadEvent(0, "standard"));
    store.preferGamepad := false;
    first := gamepad.ButtonTrigger(0, map[0 := Pad(0, true, 1.0)]);
    second := gamepad.ButtonTrigger(0, map[0 := Pad(0, true, 1.0)]);
    released := gamepad.ButtonTrigger(0, map[0 := Pad(0, false, 2.0)]);
    again := gamepad.ButtonTrigger(0, map[0 := Pad(0, true, 3.0)]);
    prefer := store.preferGamepad;
  }

  /** The wildcard trigger never records a press, so used on its own it
      reports a held button on every query. */
  method WildcardTriggerRepeats() returns (first: Result<bool>, second: Result<bool>, level: Result<bool>)
    ensures first == Ok(true) && second == Ok(true) && level == Ok(true)
  {
    var store := new Store();
    var gamepad := new G.Gamepad(store, G.ButtonMap(map[], map[]));
    var pads := map[0 := Pad(0, true, 0.0)];
    var outcome := gamepad.OnConnected(map[0 := Pad(0, false, 0.0)], G.PadEvent(0, "standard"));
    first := gamepad.AnyButtonTrigger(pads);
    second := gamepad.AnyButtonTrigger(pads);
    level := gamepad.ButtonQuery(G.AnyButton, pads);
  }

  /** Stick presets and custom axes read the snapshot's axes, and an axis
      the gamepad does not have reads 0; `vibrate` forwards its options to
      a dual-rumble actuator and nothing to any other. */
  method SticksAndVibration() returns (left: Result<Vector2>, custom: Result<Vector2>, missing: Result<Vector2>,
                                       effect: Result<Option<G.Effect>>, ignored: Result<Option<G.Effect>>)
    ensures left == Ok(Vector2(0.56, 0.31))
    ensures custom == Ok(Vector2(0.42, 0.69))
    ensures missing == Ok(Vector2(0.56, 0.0))
    ensures effect == Ok(Some(G.Effect("dual-rumble", 1000.0, Some(1.0), Some(0.5))))
    ensures ignored == Ok(None)
  {
    var store := new Store();
    var gamepad := new G.Gamepad(store, G.ButtonMap(map[], map[]));
    var pads := map[0 := Pad(0, false, 0.0)];
    var outcome := gamepad.OnConnected(pads, G.PadEvent(0, "standard"));
    var stick := G.FindStick(G.Preset("left"));
    left := gamepad.StickQuery(stick.value, pads);
    custom := gamepad.StickQuery(G.Stick("", 2, 3), pads);
    missing := gamepad.StickQuery(G.Stick("", 0, 5), pads);
    effect := gamepad.Vibrate(1000.0, G.VibrationOptions(Some(0.5), Some(1.0)), pads);
    var other := pads[0 := Pad(0, false, 0.0).(actuator := Some(G.Actuator("not-dual-rumble")))];
    ignored := gamepad.Vibrate(1000.0, G.VibrationOptions(None, None), other);
  }

  // ---------------------------------------------------------------------
  // Keyboard

  /** Alias tables for the letter keys W, A, S and D. */
  const Letters := K.KeyMap(
    map["W" := "w", "A" := "a", "S" := "s", "D" := "d"],
    map["w" := "W", "a" := "A", "s" := "S", "d" := "D"])

  /** A key typed with shift is stored under its lower-case name; its
      trigger fires once per press and keyup releases it. */
  method KeyPressReportedOnce() returns (held: Result<bool>, first: bool, second: bool, heldAfterUp: Result<bool>)
    ensures held == Ok(true) && first && !second && heldAfterUp == Ok(false)
  {
    var store := new Store();
    var keyboard := new K.Keyboard(store, Letters);
    K.NormaliseCapital('W');
    keyboard.OnKeyDown(K.KeyEvent("W"));
    held := keyboard.Held("W");
    var control := keyboard.Key("W");
    first := keyboard.Trigger(control.value);
    second := keyboard.Trigger(control.value);
    keyboard.OnKeyUp(K.KeyEvent("W"));
    heldAfterUp := keyboard.Held("W");
  }

  /** The "any" trigger reports held keys once by forgetting them: the
      key, still down, no longer reads as held, yet it stays queued for
      its own trigger, so a queued key is no longer always a held one. */
  method AnyKeyTrigger() returns (first: bool, second: bool, held: Result<bool>, queuedHeld: bool, named: bool)
    ensures first && !second
    ensures held == Ok(false) && !queuedHeld
    ensures named
  {
    var store := new Store();
    var keyboard := new K.Keyboard(store, Letters);
    K.NormaliseSmall('a');
    keyboard.OnKeyDown(K.KeyEvent("a"));
    first := keyboard.Trigger(K.AnyKey);
    second := keyboard.Trigger(K.AnyKey);
    held := keyboard.Held("A");
    queuedHeld := keyboard.QueuedHeld();
    named := keyboard.Trigger(K.NamedKey("a", "A"));
  }

  /** WASD: up alone points up, adding right points up-right, and pressing
      left as well cancels the horizontal part. */
  method WasdVectors() returns (up: Result<Vector2>, upRight: Result<Vector2>, cancelled: Result<Vector2>)
    ensures up == Ok(Vector2(0.0, -1.0))
    ensures upRight == Ok(Vector2(1.0, -1.0))
    ensures cancelled == Ok(Vector2(0.0, -1.0))
  {
    var store := new Store();
    var keyboard := new K.Keyboard(store, Letters);
    assert K.ToLower("wasd") == "wasd";
    var control := keyboard.DirectionalKeys(K.TemplateName("wasd"), None);
    var d := control.value;
    assert d == K.Directional("WASD", "W", "A", "S", "D");
    assert keyboard.Key("W") == Ok(K.NamedKey("w", "W")) && keyboard.Key("A") == Ok(K.NamedKey("a", "A"));
    assert keyboard.Key("S") == Ok(K.NamedKey("s", "S")) && keyboard.Key("D") == Ok(K.NamedKey("d", "D"));
    K.NormaliseSmall('w');
    K.NormaliseSmall('d');
    K.NormaliseSmall('a');
    keyboard.OnKeyDown(K.KeyEvent("w"));
    up := keyboard.DirectionalQuery(d);
    keyboard.OnKeyDown(K.KeyEvent("d"));
    upRight := keyboard.DirectionalQuery(d);
    keyboard.OnKeyDown(K.KeyEvent("a"));
    cancelled := keyboard.DirectionalQuery(d);
  }

  // ---------------------------------------------------------------------
  // Mouse

  function SumX(moves: seq<M.MoveEvent>): real {
    if moves == [] then 0.0 else SumX(moves[..|moves| - 1]) + moves[|moves| - 1].movementX
  }

  function SumY(moves: seq<M.MoveEvent>): real {
    if moves == [] then 0.0 else SumY(moves[..|moves| - 1]) + moves[|moves| - 1].movementY
  }

  function SumDelta(wheels: seq<M.WheelEvent>): real {
    if wheels == [] then 0.0 else SumDelta(wheels[..|wheels| - 1]) + wheels[|wheels| - 1].deltaY
  }

  /** A pointer query returns the sum of every movement since the tracker
      started, and a second query right after it returns the zero vector. */
  method PointerDrain(moves: seq<M.MoveEvent>) returns (first: Vector2, second: Vector2)
    ensures first == Vector2(SumX(moves), SumY(moves))
    ensures second == ZeroVector
  {
    var store := new Store();
    var mouse := new M.Mouse(store);
    var i := 0;
    while i < |moves|
      invariant 0 <= i <= |moves|
      invariant mouse.pointerMovement == Vector2(SumX(moves[..i]), SumY(moves[..i]))
    {
      assert moves[..i + 1][..i] == moves[..i];
      mouse.OnMouseMove(moves[i]);
      i := i + 1;
    }
    assert moves[..|moves|] == moves;
    first := mouse.PointerQuery();
    second := mouse.PointerQuery();
  }

  /** A wheel query returns the sum of every delta since the tracker
      started, and a second query right after it returns zero. */
  method WheelDrain(wheels: seq<M.WheelEvent>) returns (first: real, second: real)
    ensures first == SumDelta(wheels)
    ensures second == 0.0
  {
    var store := new Store();
    var mouse := new M.Mouse(store);
    var i := 0;
    while i < |wheels|
      invariant 0 <= i <= |wheels|
      invariant mouse.scrollDistance == SumDelta(wheels[..i])
    {
      assert wheels[..i + 1][..i] == wheels[..i];
      mouse.OnWheel(wheels[i]);
      i := i + 1;
    }
    assert wheels[..|wheels|] == wheels;
    first := mouse.WheelQuery();
    second := mouse.WheelQuery();
  }

  /** A click on the left button: held while down, its trigger fires once,
      and it is released by mouseup. */
  method MouseClick() returns (held: bool, first: bool, second: bool, heldAfterUp: bool)
    ensures held && first && !second && !heldAfterUp
  {
    var store := new Store();
    var mouse := new M.Mouse(store);
    var control := M.Button(M.ButtonName("left"));
    mouse.OnMouseDown(M.ButtonEvent(0));
    held := mouse.Query(control.value);
    first := mouse.Trigger(control.value);
    second := mouse.Trigger(control.value);
    mouse.OnMouseUp(M.ButtonEvent(0));
    heldAfterUp := mouse.Query(control.value);
  }

  // ---------------------------------------------------------------------
  // or

  /** A control whose query returns `v` and counts the queries made. */
  function Counting(title: string, v: C.Value, fromGamepad: Option<bool>): C.Control<int> {
    C.Control(title, (n: int) => (Ok(v), n + 1), fromGamepad)
  }

  /** A control whose query throws, counting the queries made. */
  function Throwing(title: string, e: Error): C.Control<int> {
    C.Control(title, (n: int) => (Err(e), n + 1), None)
  }

  /** `or(false, 2, true)` answers 2 after querying only the first two. */
  method OrShortCircuit() returns (r: Result<C.Value>, queries: int, queried: nat)
    ensures r == Ok(C.Num(2.0)) && queries == 2 && queried == 2
  {
    var cs := [Counting("a", C.Bool(false), None), Counting("b", C.Num(2.0), Some(true)),
               Counting("c", C.Bool(true), None)];
    assert cs[..0] == [] && cs[..1] == [cs[0]] && cs[..2] == [cs[0], cs[1]];
    assert C.Run(cs[..1], 0) == C.Trace([Ok(C.Bool(false))], 1);
    assert C.Run(cs[..2], 0) == C.Trace([Ok(C.Bool(false)), Ok(C.Num(2.0))], 2);
    assert cs[..3] == cs;
    assert C.Stops(C.Run(cs[..3], 0).samples[1]);
    r, queries, queried := C.Query(cs, 0);
  }

  /** With neither value truthy, both controls are queried, and the answer
      is `false` after a boolean last value and `undefined` otherwise: so
      `or(0, false)` answers false and `or(false, 0)` answers undefined. */
  method OrFallback(x: C.Value, y: C.Value) returns (r: Result<C.Value>, queries: int)
    requires !C.Truthy(x) && !C.Truthy(y)
    ensures queries == 2
    ensures r == Ok(if y.Bool? then C.Bool(false) else C.Undefined)
  {
    var cs := [Counting("x", x, None), Counting("y", y, None)];
    assert cs[..0] == [] && cs[..1] == [cs[0]] && cs[..2] == cs;
    assert C.Run(cs[..1], 0) == C.Trace([Ok(x)], 1);
    assert C.Run(cs, 0) == C.Trace([Ok(x), Ok(y)], 2);
    var queried;
    r, queries, queried := C.Query(cs, 0);
  }

  /** A control that throws ends the query: `or(false, <throws>, true)`
      passes the error on, and the third control is never queried. */
  method OrThrows(e: Error) returns (r: Result<C.Value>, queries: int, queried: nat)
    ensures r == Err(e) && queries == 2 && queried == 2
  {
    var cs := [Counting("a", C.Bool(false), None), Throwing("b", e), Counting("c", C.Bool(true), None)];
    assert cs[..0] == [] && cs[..1] == [cs[0]] && cs[..2] == [cs[0], cs[1]];
    assert C.Run(cs[..1], 0) == C.Trace([Ok(C.Bool(false))], 1);
    assert C.Run(cs[..2], 0) == C.Trace([Ok(C.Bool(false)), Err(e)], 2);
    assert cs[..3] == cs;
    assert C.Stops(C.Run(cs[..3], 0).samples[1]);
    r, queries, queried := C.Query(cs, 0);
  }

  /** The combined label of a keyboard key and a gamepad button follows
      the preference flag, through the gamepad mark each control carries. */
  method OrLabel() returns (keyboardFirst: Result<string>, gamepadFirst: Result<string>, onlyGamepad: Result<string>)
    ensures keyboardFirst == Ok("Space") && gamepadFirst == Ok("A")
    ensures onlyGamepad == Err(Thrown("No control found!"))
  {
    var space := K.NamedKey(" ", "Space");
    var a := G.NumberedButton(0, "A");
    var key := Counting(space.Label(), C.Bool(false), space.FromGamepad());
    var button := Counting(a.Label(), C.Bool(false), a.FromGamepad());
    var store := new Store();
    assert C.IsGamepad([key, button][1]) && C.IsGamepad([button, button][0]);
    keyboardFirst := C.Label([key, button], store);
    store.preferGamepad := true;
    gamepadFirst := C.Label([key, button], store);
    store.preferGamepad := false;
    onlyGamepad := C.Label([button, button], store);
  }
}
