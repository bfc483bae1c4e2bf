# gameinput input tracking, modelled in Dafny

This project models the input-tracking core of the `gameinput` library. It has three
device trackers and one combinator:

- the **gamepad tracker** (`Gamepad`) follows one standard-mapped gamepad from its
  connect event to its disconnect event. Every read of the platform's snapshot
  reconciles the snapshot's timestamp. Its button controls have a level query and
  a one-shot trigger, by number, by alias or by the wildcard `"*"`. It also reads
  the two stick presets or custom axes, and decides whether `vibrate` forwards an
  effect to the actuator;
- the **keyboard tracker** (`Keyboard`) keeps the pressed and queued key sets that
  keydown and keyup maintain, normalises key names, and answers level and one-shot
  queries, including the wildcard `"any"`. It also builds four-key directional
  vectors from a template (`arrows`, `wasd`) or an explicit list;
- the **mouse tracker** (`Mouse`) keeps the pressed and queued button sets, parses
  button names and indices, and drains the pointer-movement and wheel
  accumulators on each query;
- the **`or` combinator** fuses two or more controls. Its query is the first
  truthy query value in argument order, and its label follows the shared
  "prefer gamepad" flag.

The flag is the library's one process-wide boolean. It is the class
`Common.Store`, and every tracker holds the same instance.

Each event handler is a method that takes a small event record. Each control is a
value: a button number with its label, a key value with its label, a stick, or a
directional key set. Its `query` and `trigger.query` become tracker methods that
take that value. The platform's gamepad list (`navigator.getGamepads()`) is a
parameter `pads: map<int, Snapshot>` of every gamepad operation. A throw becomes
an `Err` result:

- `Thrown(message)` carries the message the library builds;
- `TypeError` is a property read on `undefined`;
- `TableMiss` is a miss in an alias table whose source is not part of this model.

Files:

- `common.dfy`: results and errors, `Vector2`, the `Store`, decimal printing and
  the property names every object literal inherits;
- `gamepad.dfy`, `keyboard.dfy`, `mouse.dfy`: the three trackers;
- `or.dfy`: the combinator;
- `scenarios.dfy`: short sessions against fresh trackers, mirroring the cases the
  library's test suite describes.

The 'any' key trigger, as the code has it, empties the *pressed* key set and
leaves the queued set alone (packages/input/src/inputs/keyboard.ts:54-60).
`Scenarios.AnyKeyTrigger` shows what follows: a key still held down reads as
released, yet it stays queued.

The button, key, directional, mouse-button and stick controls carry the gamepad
mark that `or` reads to choose its label: `FromGamepad()` is `Some(true)` on a
gamepad button control and `None` on the keyboard, directional and mouse-button
controls, and `GamepadInput.StickFromGamepad` is `None` for a stick. The mouse's
`pointer()` and `wheel()` controls have no control value: they are the methods
`PointerQuery` and `WheelQuery`.

## Model

| member | source | states |
|---|---|---|
| Common.NatToDecimal | packages/input/src/inputs/mouse.ts:60 | the index in the error message (below 10^21) is printed as a non-empty run of decimal digits with no leading zero |
| Common.DecimalRoundTrip | packages/input/src/inputs/mouse.ts:60 | reading the printed index back as a decimal gives the index itself |
| GamepadInput.FindStick | packages/controls/src/inputs/gamepad.ts:138-148 | "left" is axes (0,1) labelled "Left stick"; "right" is axes (2,3) labelled "Right stick"; a custom stick is used as given; any other name fails with `Gamepad stick "<name>" not found!` |
| GamepadInput.StickPresetAsWritten | packages/controls/src/inputs/gamepad.ts:141 | the `in` test as written throws only for names that are neither presets nor inherited Object.prototype members; own presets agree with FindStick |
| GamepadInput.InheritedStickNameAccepted | packages/controls/src/inputs/gamepad.ts:141-145 | "constructor" passes the as-written lookup, while the corrected lookup rejects it |
| GamepadInput.AxisAt | packages/controls/src/inputs/gamepad.ts:155-158 | a stick coordinate is the snapshot's axis value when the index is in range, and the vector's default 0 when the read gives undefined |
| GamepadInput.FindButtonNumber | packages/controls/src/maps/gamepad.spec.ts:6-19 | numbers pass unchanged; a name resolves exactly when the alias table has it; an unknown name fails with `There is no gamepad button called "<name>"!` |
| GamepadInput.Level | packages/controls/src/inputs/gamepad.ts:84 | the wildcard level is "some button pressed"; a numbered button's level is its pressed flag when in range, and a TypeError otherwise |
| GamepadInput.Reconcile | packages/controls/src/inputs/gamepad.ts:65-68 | a newer stamp is adopted and forces the preference to the gamepad; an older or equal stamp changes nothing; the kept stamp never decreases |
| GamepadInput.ReconcileIdempotent | packages/controls/src/inputs/gamepad.ts:65-68 | reading the same snapshot a second time changes neither the stamp nor the flag |
| GamepadInput.Gamepad.constructor | packages/controls/src/inputs/gamepad.ts:26-28 | a new tracker has no reported presses, no gamepad and last stamp 0 |
| GamepadInput.Gamepad.OnConnected | packages/controls/src/inputs/gamepad.ts:37-44 | the connect handler ignores the event while a gamepad is connected (only the read's reconciliation applies) and for a non-standard mapping; a standard gamepad connecting while disconnected becomes tracked and preferred; a failing read propagates |
| GamepadInput.Gamepad.OnDisconnected | packages/controls/src/inputs/gamepad.ts:46-51 | only the tracked gamepad's disconnect has an effect: it forgets the gamepad and clears the preference; any other is a no-op |
| GamepadInput.Gamepad.Poll | packages/controls/src/inputs/gamepad.ts:58-71 | the getter throws `No gamepad connected` with no tracked gamepad and a TypeError for a missing snapshot; otherwise it returns the snapshot, reconciled as Reconcile states, and the stamp never decreases |
| GamepadInput.Gamepad.IsConnected | packages/controls/src/inputs/gamepad.ts:54-56 | connected exactly when a gamepad is tracked and its snapshot says so; the snapshot is read, and reconciled, only when one is tracked |
| GamepadInput.Gamepad.Reread | packages/controls/src/inputs/gamepad.ts:58-71 | a further read right after a successful connection check returns the tracked snapshot and changes nothing |
| GamepadInput.Gamepad.Button | packages/controls/src/inputs/gamepad.ts:73-111 | "*" is the wildcard; any other id is resolved to a button number and labelled through the tables, and fails with the resolver's error or a table miss |
| GamepadInput.Gamepad.ButtonQuery | packages/controls/src/inputs/gamepad.ts:81-85 | false while not connected; when connected, the Level of the tracked snapshot |
| GamepadInput.Gamepad.ButtonTrigger | packages/controls/src/inputs/gamepad.ts:120-132 | false and no change while not connected; when connected, fires exactly when the button is pressed and was not on record, keeps it on record exactly while pressed, and leaves every other record alone |
| GamepadInput.Gamepad.AnyButtonTrigger | packages/controls/src/inputs/gamepad.ts:89-101 | false and no change while not connected; when connected, fires exactly when some button is pressed and nothing is on record; never adds a record, and clears them all when nothing is pressed |
| GamepadInput.Gamepad.StickQuery | packages/controls/src/inputs/gamepad.ts:152-159 | the zero vector while not connected; when connected, the vector of the snapshot's two axes of the stick, an axis the gamepad lacks reading 0 |
| GamepadInput.Gamepad.Vibrate | packages/controls/src/inputs/gamepad.ts:163-177 | forwards exactly ("dual-rumble", duration, strong, weak), and does so exactly when connected with a "dual-rumble" actuator; otherwise forwards nothing |
| KeyboardInput.UpperFixedIffNoLower | packages/input/src/inputs/keyboard.ts:25 | a key equals its upper-case form exactly when it has no lower-case letter |
| KeyboardInput.Normalise | packages/input/src/inputs/keyboard.ts:23-25 | a key with no lower-case letter is lower-cased and any other is kept; the result has the same length and the same lower-case form |
| KeyboardInput.NormaliseIdempotent | packages/input/src/inputs/keyboard.ts:25 | normalising an already stored name changes nothing |
| KeyboardInput.NormaliseIgnoresShift | packages/input/src/inputs/keyboard.ts:25 | a name without capitals and its shifted (upper-case) form are stored under the same name |
| KeyboardInput.NormaliseCapital | packages/input/src/inputs/keyboard.ts:25 | a capital letter typed on its own is stored as the small letter |
| KeyboardInput.NormaliseSmall | packages/input/src/inputs/keyboard.ts:25 | a small letter typed on its own is stored as it is |
| KeyboardInput.NormaliseExamples | packages/input/src/inputs/keyboard.ts:37 | "A" becomes "a"; "a" and "ArrowUp" are kept |
| KeyboardInput.FindKeyValues | packages/input/src/inputs/keyboard.ts:97 | every listed key is resolved in order; the list fails exactly when some key is missing from the table |
| KeyboardInput.JoinKeyLabels | packages/input/src/inputs/keyboard.ts:98 | the joined label exists exactly when every key has a label; a single key's joined label is its label |
| KeyboardInput.FindTemplate | packages/input/src/inputs/keyboard.ts:85-94 | "arrows" and "wasd" in any letter case select their four-key templates; any other name fails with `Directional key template "<name>" not found!`, quoting the name as given |
| KeyboardInput.TemplateAsWritten | packages/input/src/inputs/keyboard.ts:88 | the `in` test as written throws only when the lower-cased name is neither a template nor an inherited Object.prototype member; own templates agree with FindTemplate |
| KeyboardInput.InheritedTemplateNameAccepted | packages/input/src/inputs/keyboard.ts:86-93 | "Constructor" passes the as-written lookup, while the corrected lookup rejects it |
| KeyboardInput.TemplateNamesIgnoreCase | packages/input/src/inputs/keyboard.ts:86 | "WASD" and "Arrows" select their templates |
| KeyboardInput.Keyboard.constructor | packages/input/src/inputs/keyboard.ts:15-16 | a new tracker has no pressed and no queued keys |
| KeyboardInput.Keyboard.OnKeyDown | packages/input/src/inputs/keyboard.ts:21-31 | keydown adds the normalised key to the pressed and the queued sets, clears the preference, and keeps every queued key held |
| KeyboardInput.Keyboard.OnKeyUp | packages/input/src/inputs/keyboard.ts:33-43 | keyup removes the normalised key from both sets, clears the preference, and keeps every queued key held |
| KeyboardInput.Keyboard.Key | packages/input/src/inputs/keyboard.ts:47-69 | "any" is the wildcard; any other name resolves to its key value labelled through the tables, or fails with a table miss |
| KeyboardInput.Keyboard.Query | packages/input/src/inputs/keyboard.ts:51 | the wildcard is held while some key is pressed, and a named key while its value is pressed; reading changes nothing |
| KeyboardInput.Keyboard.Held | packages/input/src/inputs/keyboard.ts:65-70 | querying by name succeeds exactly when the name resolves, and then answers Query on the resolved key |
| KeyboardInput.Keyboard.Trigger | packages/input/src/inputs/keyboard.ts:54-73 | a named key fires exactly when it was queued and is unqueued; the wildcard fires exactly when some key was pressed, then empties the pressed set and leaves the queue alone; a named key's trigger keeps every queued key held and, while that holds, fires only for a held key |
| KeyboardInput.Keyboard.DirectionalKeys | packages/input/src/inputs/keyboard.ts:78-107 | a template gives its four keys (up, left, down, right) and label; a list gives the values of its four keys and their joined labels, fails with `Directional key templates have to consist of four keys!` for any other length, and with a table miss for an unknown key; a given label wins |
| KeyboardInput.Keyboard.DirectionalQuery | packages/input/src/inputs/keyboard.ts:108-117 | x is right minus left and y is down minus up over the four keys' held states, each in {-1, 0, 1}; an unknown key fails with a table miss |
| MouseInput.ParseButton | packages/input/src/inputs/mouse.ts:49-63 | "left", "middle" and "right" are 0, 1 and 2, and any other name fails with `There is no mouse button called "<name>"!`; an index below 3 is returned unchanged with no lower bound, and any other fails with `There is no mouse button with the index <n>!` |
| MouseInput.ParseButtonNamesMatchIndices | packages/input/src/inputs/mouse.ts:51-58 | naming a button and giving its index select the same button |
| MouseInput.ButtonLabel | packages/input/src/inputs/mouse.ts:67 | the label is the button's title followed by " Mouse Button", and "undefined Mouse Button" outside 0..2 |
| MouseInput.Button | packages/input/src/inputs/mouse.ts:65-67 | a button control exists exactly when the argument parses, and carries the parsed number and its label |
| MouseInput.ButtonLabels | packages/input/src/inputs/mouse.ts:67 | "left", "middle" and index 2 give "Left Mouse Button", "Middle Mouse Button" and "Right Mouse Button" |
| MouseInput.NegativeIndexAccepted | packages/input/src/inputs/mouse.ts:57-58 | index -1 is accepted and labelled "undefined Mouse Button" |
| MouseInput.ParseButtonErrors | packages/input/src/inputs/mouse.ts:54-60 | "back" and index 3 fail with their two messages |
| MouseInput.Mouse.constructor | packages/input/src/inputs/mouse.ts:12-15 | a new tracker has zero movement, no pressed or queued buttons and zero wheel distance |
| MouseInput.Mouse.OnMouseDown | packages/input/src/inputs/mouse.ts:24-28 | mousedown adds the button to the pressed and the queued sets, clears the preference, and keeps every queued button held |
| MouseInput.Mouse.OnMouseUp | packages/input/src/inputs/mouse.ts:30-34 | mouseup removes the button from both sets, clears the preference, and keeps every queued button held |
| MouseInput.Mouse.OnMouseMove | packages/input/src/inputs/mouse.ts:36-40 | mousemove adds the movement to the accumulated vector, component by component, and clears the preference |
| MouseInput.Mouse.OnWheel | packages/input/src/inputs/mouse.ts:42-46 | wheel adds the vertical delta to the accumulated distance and clears the preference |
| MouseInput.Mouse.Query | packages/input/src/inputs/mouse.ts:71 | a button is held exactly while it is in the pressed set; reading changes nothing |
| MouseInput.Mouse.Trigger | packages/input/src/inputs/mouse.ts:74-81 | fires exactly when the button was queued and unqueues it; it keeps every queued button held and, while that holds, fires only for a held button |
| MouseInput.Mouse.PointerQuery | packages/input/src/inputs/mouse.ts:89-93 | returns the accumulated movement and resets it to the zero vector |
| MouseInput.Mouse.WheelQuery | packages/input/src/inputs/mouse.ts:100-104 | returns the accumulated distance and resets it to 0 |
| Combinators.Or | packages/input/src/core/or.ts:4-5 | fewer than two controls fail with `Less than two controls specified!`; otherwise the controls are kept as given |
| Combinators.Label | packages/input/src/core/or.ts:8-23 | with no gamepad control, the first control's label; with the gamepad preferred, the first gamepad control's label, never failing; otherwise the first non-gamepad control's label, failing with `No control found!` exactly when every control is a gamepad control |
| Combinators.RunPrefix | packages/input/src/core/or.ts:28-33 | querying the controls in order begins with querying any prefix of them in order |
| Combinators.Fallback | packages/input/src/core/or.ts:35 | with every control answering a falsy value, the answer is `false` exactly when the last value was a boolean, and `undefined` otherwise; either is falsy |
| Combinators.Query | packages/input/src/core/or.ts:25-36 | queries the controls in order, each once, threading their state; stops at the first control that throws and passes its error on, or at the first truthy value and returns it; otherwise queries all and returns the Fallback |
| Combinators.QueriedUpToFirstStop | packages/input/src/core/or.ts:28-32 | the controls Query queries are exactly those up to the first one that throws or answers a truthy value in the full sequential run |
| Scenarios.GamepadConnection | packages/controls/src/inputs/gamepad.spec.ts:133-152 | not connected at first; connected after a standard connect; a second gamepad neither takes over nor ends the session by disconnecting; the tracked gamepad's disconnect does and clears the preference |
| Scenarios.NonStandardIgnored | packages/controls/src/inputs/gamepad.spec.ts:68-73 | a gamepad with a non-standard mapping is not tracked |
| Scenarios.DisconnectedQueries | packages/controls/src/inputs/gamepad.spec.ts:87-115 | while disconnected, level and trigger are false, the stick is (0,0) and vibrate forwards nothing |
| Scenarios.GamepadTriggerOnce | packages/controls/src/inputs/gamepad.spec.ts:182-196 | a held button's trigger fires once and is re-armed by releasing it; a newer snapshot makes the gamepad preferred again |
| Scenarios.WildcardTriggerRepeats | packages/controls/src/inputs/gamepad.ts:89-101 | used on its own, the wildcard trigger fires on every query while a button is held |
| Scenarios.SticksAndVibration | packages/controls/src/inputs/gamepad.spec.ts:199-260 | the left preset and custom axes (2,3) read their axes, and an axis the gamepad lacks reads 0; vibrate forwards its options to a dual-rumble actuator and nothing to any other |
| Scenarios.KeyPressReportedOnce | packages/input/src/inputs/keyboard.ts:21-43 | a shifted key is stored under its lower-case name, fires its trigger once per press, and is released by keyup |
| Scenarios.AnyKeyTrigger | packages/input/src/inputs/keyboard.ts:54-60 | the "any" trigger fires once; afterwards the key, still down, reads as not held, but it stays queued and fires its own trigger |
| Scenarios.WasdVectors | packages/input/src/inputs/keyboard.ts:107-117 | W gives (0,-1), W and D give (1,-1), and adding A cancels back to (0,-1) |
| Scenarios.PointerDrain | packages/input/src/inputs/mouse.ts:86-95 | a pointer query returns the sum of every movement so far, and an immediate second query returns (0,0) |
| Scenarios.WheelDrain | packages/input/src/inputs/mouse.ts:97-106 | a wheel query returns the sum of every delta so far, and an immediate second query returns 0 |
| Scenarios.MouseClick | packages/input/src/inputs/mouse.ts:65-84 | the left button is held while down, its trigger fires once, and mouseup releases it |
| Scenarios.OrShortCircuit | packages/input/src/core/or.ts:28-32 | `or(false, 2, true)` answers 2 after querying only the first two controls |
| Scenarios.OrFallback | packages/input/src/core/or.ts:28-35 | with two falsy values both controls are queried, and the answer is false when the second value is a boolean and undefined otherwise |
| Scenarios.OrThrows | packages/input/src/core/or.ts:28-32 | `or(false, <throws>, true)` fails with the second control's error after querying only the first two controls |
| Scenarios.OrLabel | packages/input/src/core/or.ts:9-21 | combining a keyboard key with a gamepad button through their gamepad marks, the label is the key's with the flag off and the button's with it on; with only gamepad controls and the flag off, `No control found!` |

## Left out

- Event-listener registration, the `window`/`document`/`navigator` defaults and the
  handlers' DOM return values: each handler is a method called with its event record.
- Pointer lock (`lockPointer`, `unlockPointer`, `isPointerLocked`): these pass straight
  through to DOM calls that the model cannot see.
- The Promise that `vibrate` returns and the awaited `playEffect` call: the model
  returns the effect the call would forward.
- Floating point: axes, magnitudes, durations, movements and deltas are reals, with
  no rounding, NaN or infinity. Button and axis indices are integers. A non-integer
  or NaN index is not modelled.
- The alias tables behind `findKeyValue`, `getKeyLabel`, `findButtonNumber` and
  `getButtonLabel` are not part of this model. They are finite maps given to the
  tracker constructors, and a missing entry fails with `TableMiss`. The button
  resolver's message and its unchanged numbers follow that resolver's own test cases.
- `store.ts` is not part of this model. The store starts with the flag off.
- `and()`, the re-export barrels and the test helper `mock.ts` are not part of this
  model.
- Case mapping covers ASCII letters only. Other scripts' upper and lower case are
  not modelled.
- A control's `label` is stored as `title`, because `label` is a reserved word in
  Dafny.
- The `or` combinator's controls are values over an abstract device state `W`: a
  label, a query that may change the state or throw, and the `fromGamepad` mark. A control
  whose label getter throws is not modelled. `Label` on an empty list (a TypeError)
  cannot arise through `Or`.
- `utils/math.ts` is not part of this model. Its `Vector2` is `Common.Vector2`,
  whose missing or `undefined` coordinates default to 0, as the library's own
  uses of `new Vector2()` show.
- The tracker controls are not turned into `Combinators.Control` values: their
  queries are methods on the trackers, while `or` takes queries as functions over an
  abstract device state. Their labels and gamepad marks are what `or` reads, and
  `Scenarios.OrLabel` combines them.
- GamepadInput.Gamepad.Reread: every read of the platform's gamepad list within one
  operation sees the same `pads` map. The source calls `getGamepads()` afresh on each
  read, two or three times per query, so a list that changes or loses the tracked
  gamepad between those reads is not modelled; a later read in the same query
  therefore never fails where the first succeeded.
- Common.NatToDecimal: prints every index as plain decimal digits. A template literal
  prints an index of 10^21 or more in exponent form ("1e+21"), and rounds integers
  above 2^53 to the nearest double first; neither is modelled.
- KeyboardInput.JoinKeyLabels: states the joined label outright only for a single key.
  For longer lists it states only when the join succeeds, not the concatenation.

## Findings

| source | as written | input that shows it | evidently intended | confidence | as-written member | corrected member |
|---|---|---|---|---|---|---|
| packages/controls/src/inputs/gamepad.ts:141 | `stick in gamepadSticks` also accepts names that every object literal inherits from Object.prototype | `stick("constructor")` does not throw, and its control reads the axes of an object with no `xAxis` or `yAxis` | only "left" and "right" select a preset; every other name throws `Gamepad stick "<name>" not found!` | high; not executed | GamepadInput.StickPresetAsWritten, GamepadInput.InheritedStickNameAccepted | GamepadInput.FindStick |
| packages/input/src/inputs/keyboard.ts:88 | `templateId in arrowKeyTemplates` also accepts inherited names once lower-cased | `directionalKeys("Constructor")` does not throw, and takes its keys from a function object | only "arrows" and "wasd", in any letter case, select a template; every other name throws `Directional key template "<name>" not found!` | high; not executed | KeyboardInput.TemplateAsWritten, KeyboardInput.InheritedTemplateNameAccepted | KeyboardInput.FindTemplate |
