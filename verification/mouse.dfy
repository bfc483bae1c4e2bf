/** The mouse tracker: pressed and queued button sets kept up to date by
    mousedown and mouseup, level and one-shot button queries, and the
    pointer-movement and wheel accumulators that a query drains. */
module MouseInput {
  import opened Common

  const MouseButtons: seq<string> := ["left", "middle", "right"]
  const ButtonTitles: seq<string> := ["Left", "Middle", "Right"]

  /** A mouse button is asked for by name or by index. */
  datatype ButtonArg = ButtonName(name: string) | ButtonIndex(index: int)

  /** `parseButton`: a name is its position in ["left", "middle", "right"];
      an index is taken as it is when below three (there is no lower
      bound); anything else throws. */
  function ParseButton(b: ButtonArg): (r: Result<int>)
    ensures b.ButtonName? ==> (r.Ok? <==> b.name in MouseButtons)
    ensures b.ButtonName? && r.Ok? ==> 0 <= r.value < 3 && MouseButtons[r.value] == b.name
    ensures b.ButtonIndex? ==> (r.Ok? <==> b.index < |MouseButtons|)
    ensures b.ButtonIndex? && r.Ok? ==> r.value == b.index
    ensures r.Err? && b.ButtonName? ==> r.error == Thrown("There is no mouse button called \"" + b.name + "\"!")
    ensures r.Err? && b.ButtonIndex? ==>
              b.index >= 3 && r.error == Thrown("There is no mouse button with the index " + NatToDecimal(b.index) + "!")
  {
    match b
    case ButtonName(name) =>
      if name == "left" then Ok(0)
      else if name == "middle" then Ok(1)
      else if name == "right" then Ok(2)
      else Err(Thrown("There is no mouse button called \"" + name + "\"!"))
    case ButtonIndex(n) =>
      if n < |MouseButtons| then Ok(n)
      else Err(Thrown("There is no mouse button with the index " + NatToDecimal(n) + "!"))
  }

  /** Naming a button and giving its index select the same button. */
  lemma ParseButtonNamesMatchIndices(i: nat)
    requires i < 3
    ensures ParseButton(ButtonName(MouseButtons[i])) == ParseButton(ButtonIndex(i)) == Ok(i)
  {
  }

  /** The label of a button control: its title followed by " Mouse Button";
      an index outside 0..2 reads the array past its end, `undefined`. */
  function ButtonLabel(n: int): (r: string)
    ensures 0 <= n < 3 ==> r == ButtonTitles[n] + " Mouse Button"
    ensures !(0 <= n < 3) ==> r == "undefined Mouse Button"
  {
    (if 0 <= n < |ButtonTitles| then ButtonTitles[n] else "undefined") + " Mouse Button"
  }

  /** The control `button(...)` returns. */
  datatype MouseButton = MouseButton(number: int, title: string)
  {
    /** Mouse controls carry no gamepad mark. */
    function FromGamepad(): Option<bool> {
      None
    }
  }

  /** `button(b)`: the parsed button with its label; a bad name or index
      throws. */
  function Button(b: ButtonArg): (r: Result<MouseButton>)
    ensures r.Ok? <==> ParseButton(b).Ok?
    ensures r.Ok? ==> r.value == MouseButton(ParseButton(b).value, ButtonLabel(ParseButton(b).value))
    ensures r.Err? ==> r.error == ParseButton(b).error
  {
    match ParseButton(b)
    case Err(e) => Err(e)
    case Ok(n) => Ok(MouseButton(n, ButtonLabel(n)))
  }

  lemma ButtonLabels()
    ensures Button(ButtonName("left")) == Ok(MouseButton(0, "Left Mouse Button"))
    ensures Button(ButtonName("middle")) == Ok(MouseButton(1, "Middle Mouse Button"))
    ensures Button(ButtonIndex(2)) == Ok(MouseButton(2, "Right Mouse Button"))
  {
    assert ButtonLabel(0) == "Left" + " Mouse Button" == "Left Mouse Button";
    assert ButtonLabel(1) == "Middle" + " Mouse Button" == "Middle Mouse Button";
    assert ButtonLabel(2) == "Right" + " Mouse Button" == "Right Mouse Button";
  }

  /** With no lower bound on the index, a negative index is accepted and
      labelled from past the end of the title array. */
  lemma NegativeIndexAccepted()
    ensures Button(ButtonIndex(-1)) == Ok(MouseButton(-1, "undefined Mouse Button"))
  {
  }

  lemma ParseButtonErrors()
    ensures ParseButton(ButtonName("back")) == Err(Thrown("There is no mouse button called \"back\"!"))
    ensures ParseButton(ButtonIndex(3)) == Err(Thrown("There is no mouse button with the index 3!"))
  {
  }

  datatype ButtonEvent = ButtonEvent(button: int)
  datatype MoveEvent = MoveEvent(movementX: real, movementY: real)
  datatype WheelEvent = WheelEvent(deltaY: real)

  // ---------------------------------------------------------------------
  // The tracker

  class Mouse {
    const store: Store

    /** Pointer movement since the last pointer query. */
    var pointerMovement: Vector2
    /** Buttons held down now. */
    var pressedButtons: set<int>
    /** Buttons pressed and not yet reported by a trigger query. */
    var queuedButtons: set<int>
    /** Wheel distance since the last wheel query. */
    var scrollDistance: real

    /** Every queued button is held; the handlers and the trigger keep it so. */
    predicate QueuedHeld()
      reads this
    {
      queuedButtons <= pressedButtons
    }

    constructor (store: Store)
      ensures this.store == store
      ensures pointerMovement == ZeroVector && pressedButtons == {} && queuedButtons == {} && scrollDistance == 0.0
      ensures QueuedHeld()
    {
      this.store := store;
      pointerMovement := ZeroVector;
      pressedButtons := {};
      queuedButtons := {};
      scrollDistance := 0.0;
    }

    /** `mousedown`: the button is held and queued. */
    method OnMouseDown(e: ButtonEvent)
      modifies this`pressedButtons, this`queuedButtons, store`preferGamepad
      ensures pressedButtons == old(pressedButtons) + {e.button}
      ensures queuedButtons == old(queuedButtons) + {e.button}
      ensures !store.preferGamepad
      ensures old(QueuedHeld()) ==> QueuedHeld()
    {
      store.preferGamepad := false;
      pressedButtons := pressedButtons + {e.button};
      queuedButtons := queuedButtons + {e.button};
    }

    /** `mouseup`: the button is neither held nor queued any more, so a
        press released before any trigger query is never reported. */
    method OnMouseUp(e: ButtonEvent)
      modifies this`pressedButtons, this`queuedButtons, store`preferGamepad
      ensures pressedButtons == old(pressedButtons) - {e.button}
      ensures queuedButtons == old(queuedButtons) - {e.button}
      ensures !store.preferGamepad
      ensures old(QueuedHeld()) ==> QueuedHeld()
    {
      store.preferGamepad := false;
      pressedButtons := pressedButtons - {e.button};
      queuedButtons := queuedButtons - {e.button};
    }

    /** `mousemove`: the movement is added to the accumulated vector. */
    method OnMouseMove(e: MoveEvent)
      modifies this`pointerMovement, store`preferGamepad
      ensures pointerMovement == Vector2(old(pointerMovement).x + e.movementX, old(pointerMovement).y + e.movementY)
      ensures !store.preferGamepad
    {
      store.preferGamepad := false;
      pointerMovement := pointerMovement.(x := pointerMovement.x + e.movementX);
      pointerMovement := pointerMovement.(y := pointerMovement.y + e.movementY);
    }

    /** `wheel`: the vertical delta is added to the accumulated distance. */
    method OnWheel(e: WheelEvent)
      modifies this`scrollDistance, store`preferGamepad
      ensures scrollDistance == old(scrollDistance) + e.deltaY
      ensures !store.preferGamepad
    {
      store.preferGamepad := false;
      var distance := e.deltaY;
      scrollDistance := scrollDistance + distance;
    }

    /** `button(b).query()`: whether the button is held. */
    function Query(b: MouseButton): (r: bool)
      reads this
      ensures r <==> b.number in pressedButtons
    {
      b.number in pressedButtons
    }

    /** `button(b).trigger.query()`: a queued button is reported once and
        unqueued. */
    method Trigger(b: MouseButton) returns (fired: bool)
      modifies this`queuedButtons
      ensures fired == (b.number in old(queuedButtons))
      ensures queuedButtons == old(queuedButtons) - {b.number}
      ensures old(QueuedHeld()) ==> QueuedHeld() && (fired ==> Query(b))
    {
      if b.number in queuedButtons {
        queuedButtons := queuedButtons - {b.number};
        return true;
      }
      return false;
    }

    /** `pointer().query()`: the movement accumulated since the last
        query; the accumulator starts again from zero. */
    method PointerQuery() returns (movement: Vector2)
      modifies this`pointerMovement
      ensures movement == old(pointerMovement)
      ensures pointerMovement == ZeroVector
    {
      movement := pointerMovement;
      pointerMovement := Vector2(0.0, 0.0);
    }

    /** `wheel().query()`: the distance accumulated since the last query;
        the accumulator starts again from zero. */
    method WheelQuery() returns (distance: real)
      modifies this`scrollDistance
      ensures distance == old(scrollDistance)
      ensures scrollDistance == 0.0
    {
      distance := scrollDistance;
      scrollDistance := 0.0;
    }
  }
}
