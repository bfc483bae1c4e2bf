/** The keyboard tracker: pressed and queued key sets kept up to date by
    keydown and keyup, level and one-shot key queries (including the
    wildcard "any"), and four-key directional vectors. */
module KeyboardInput {
  import opened Common

  // ---------------------------------------------------------------------
  // Case mapping (ASCII letters only)

  function UpperChar(c: char): char {
    if 'a' <= c <= 'z' then (c as int - 32) as char else c
  }

  function LowerChar(c: char): char {
    if 'A' <= c <= 'Z' then (c as int + 32) as char else c
  }

  /** `toUpperCase()`. */
  function ToUpper(s: string): (r: string)
    ensures |r| == |s|
    ensures forall i :: 0 <= i < |s| ==> r[i] == UpperChar(s[i])
  {
    seq(|s|, i requires 0 <= i < |s| => UpperChar(s[i]))
  }

  /** `toLowerCase()`. */
  function ToLower(s: string): (r: string)
    ensures |r| == |s|
    ensures forall i :: 0 <= i < |s| ==> r[i] == LowerChar(s[i])
  {
    seq(|s|, i requires 0 <= i < |s| => LowerChar(s[i]))
  }

  predicate HasLower(s: string) {
    exists i :: 0 <= i < |s| && 'a' <= s[i] <= 'z'
  }

  predicate HasUpper(s: string) {
    exists i :: 0 <= i < |s| && 'A' <= s[i] <= 'Z'
  }

  /** A string equals its upper-case form exactly when it has no
      lower-case letter. */
  lemma UpperFixedIffNoLower(s: string)
    ensures ToUpper(s) == s <==> !HasLower(s)
  {
    if !HasLower(s) {
      assert forall i :: 0 <= i < |s| ==> ToUpper(s)[i] == s[i];
    } else {
      var i :| 0 <= i < |s| && 'a' <= s[i] <= 'z';
      assert ToUpper(s)[i] != s[i];
    }
  }

  /** The key name the tracker stores: a name with no lower-case letter
      ("A", "F1", "  ") is lower-cased, any other ("ArrowUp", "a") is
      kept as it is. */
  function Normalise(key: string): (r: string)
    ensures |r| == |key|
    ensures ToLower(r) == ToLower(key)
    ensures HasLower(key) ==> r == key
    ensures !HasLower(key) ==> r == ToLower(key) && !HasUpper(r)
  {
    UpperFixedIffNoLower(key);
    assert ToLower(ToLower(key)) == ToLower(key);
    if key == ToUpper(key) then ToLower(key) else key
  }

  /** Normalising twice is normalising once. */
  lemma NormaliseIdempotent(key: string)
    ensures Normalise(Normalise(key)) == Normalise(key)
  {
    var n := Normalise(key);
    if !HasLower(key) {
      assert ToLower(n) == n;
      if !HasLower(n) {
        assert Normalise(n) == ToLower(n);
      }
    }
  }

  /** A key typed with or without shift is stored under one name: for a
      name without upper-case letters, its upper-case form normalises to
      the name itself. */
  lemma NormaliseIgnoresShift(s: string)
    requires !HasUpper(s)
    ensures Normalise(ToUpper(s)) == s
    ensures Normalise(s) == s
  {
    var u := ToUpper(s);
    assert !HasLower(u) by {
      forall i | 0 <= i < |u| ensures !('a' <= u[i] <= 'z') {
      }
    }
    assert ToLower(u) == s;
    if !HasLower(s) {
      assert ToLower(s) == s;
    }
  }

  /** A capital letter on its own, as typed with shift, is stored as the
      small letter. */
  lemma NormaliseCapital(c: char)
    requires 'A' <= c <= 'Z'
    ensures Normalise([c]) == [LowerChar(c)]
  {
    assert !HasLower([c]) by {
      forall i | 0 <= i < 1 ensures !('a' <= [c][i] <= 'z') {
      }
    }
  }

  /** A small letter on its own is stored as it is. */
  lemma NormaliseSmall(c: char)
    requires 'a' <= c <= 'z'
    ensures Normalise([c]) == [c]
  {
    assert HasLower([c]) by {
      assert 'a' <= [c][0] <= 'z';
    }
  }

  lemma NormaliseExamples()
    ensures Normalise("A") == "a"
    ensures Normalise("a") == "a"
    ensures Normalise("ArrowUp") == "ArrowUp"
  {
    NormaliseIgnoresShift("a");
    assert ToUpper("a") == "A";
    assert HasLower("ArrowUp") by {
      assert 'a' <= "ArrowUp"[1] <= 'z';
    }
  }

  // ---------------------------------------------------------------------
  // Alias tables

  /** The keyboard alias tables: key names to key values, key names to
      labels. A name absent from a table makes the lookup throw. */
  datatype KeyMap = KeyMap(values: map<string, string>, labels: map<string, string>)

  /** Looks up every name of `keys`, in order; fails at the first miss. */
  function FindKeyValues(table: KeyMap, keys: seq<string>): (r: Result<seq<string>>)
    ensures r.Ok? <==> forall i :: 0 <= i < |keys| ==> keys[i] in table.values
    ensures r.Ok? ==> |r.value| == |keys| && forall i :: 0 <= i < |keys| ==> r.value[i] == table.values[keys[i]]
    ensures r.Err? ==> r.error == TableMiss
    decreases |keys|
  {
    if keys == [] then Ok([])
    else if keys[0] !in table.values then Err(TableMiss)
    else match FindKeyValues(table, keys[1..])
      case Err(e) => Err(e)
      case Ok(rest) => Ok([table.values[keys[0]]] + rest)
  }

  /** The labels of every name of `keys`, joined; fails at the first miss. */
  function JoinKeyLabels(table: KeyMap, keys: seq<string>): (r: Result<string>)
    ensures r.Ok? <==> forall i :: 0 <= i < |keys| ==> keys[i] in table.labels
    ensures r.Err? ==> r.error == TableMiss
    ensures |keys| == 1 && r.Ok? ==> r.value == table.labels[keys[0]]
    decreases |keys|
  {
    if keys == [] then Ok("")
    else if keys[0] !in table.labels then Err(TableMiss)
    else match JoinKeyLabels(table, keys[1..])
      case Err(e) => Err(e)
      case Ok(rest) => Ok(table.labels[keys[0]] + rest)
  }

  // ---------------------------------------------------------------------
  // Directional templates

  /** A named directional template: its label and its keys in the order
      up, left, down, right. */
  datatype Template = Template(title: string, keys: seq<string>)

  const Arrows := Template("Arrow keys", ["ArrowUp", "ArrowLeft", "ArrowDown", "ArrowRight"])
  const Wasd := Template("WASD", ["W", "A", "S", "D"])

  /** The template a name selects, compared case-insensitively; any other
      name throws with the name as given. */
  function FindTemplate(name: string): (r: Result<Template>)
    ensures r.Ok? <==> ToLower(name) == "arrows" || ToLower(name) == "wasd"
    ensures ToLower(name) == "arrows" ==> r == Ok(Arrows)
    ensures ToLower(name) == "wasd" ==> r == Ok(Wasd)
    ensures r.Ok? ==> |r.value.keys| == 4
    ensures r.Err? ==> r.error == Thrown("Directional key template \"" + name + "\" not found!")
  {
    var id := ToLower(name);
    if id == "arrows" then Ok(Arrows)
    else if id == "wasd" then Ok(Wasd)
    else Err(Thrown("Directional key template \"" + name + "\" not found!"))
  }

  /** What JavaScript's `id in arrowKeyTemplates` finds: an own template,
      a member inherited from Object.prototype, or nothing. */
  datatype TemplateLookup = OwnTemplate(template: Template) | InheritedTemplate | NoTemplate

  /** The template lookup as written: inherited names whose spelling is
      all lower case ("constructor", "__proto__") pass the `in` test, so
      only names found nowhere on the object throw. */
  function TemplateAsWritten(name: string): (r: TemplateLookup)
    ensures r.NoTemplate? <==> FindTemplate(name).Err? && ToLower(name) !in ObjectPrototypeKeys
    ensures r.OwnTemplate? ==> FindTemplate(name) == Ok(r.template)
  {
    var id := ToLower(name);
    if id == "arrows" then OwnTemplate(Arrows)
    else if id == "wasd" then OwnTemplate(Wasd)
    else if id in ObjectPrototypeKeys then InheritedTemplate
    else NoTemplate
  }

  /** `directionalKeys("Constructor")` does not throw as written, while the
      template lookup the model uses rejects it. */
  lemma InheritedTemplateNameAccepted()
    ensures TemplateAsWritten("Constructor") == InheritedTemplate
    ensures FindTemplate("Constructor").Err?
  {
    var name := "Constructor";
    var id := ToLower(name);
    assert id == "constructor" by {
      forall i | 0 <= i < |name| ensures id[i] == "constructor"[i] {
      }
    }
    assert id in ObjectPrototypeKeys;
    assert |id| != |"arrows"| && |id| != |"wasd"|;
  }

  lemma TemplateNamesIgnoreCase()
    ensures FindTemplate("WASD") == Ok(Wasd)
    ensures FindTemplate("Arrows") == Ok(Arrows)
  {
    assert ToLower("WASD") == "wasd";
    assert ToLower("Arrows") == "arrows";
  }

  // ---------------------------------------------------------------------
  // Controls

  /** The control `key(...)` returns: the wildcard "any", or one key value
      with its label. */
  datatype KeyControl = AnyKey | NamedKey(value: string, title: string)
  {
    function Label(): string {
      match this
      case AnyKey => "Any key"
      case NamedKey(_, title) => title
    }

    /** Keyboard controls carry no gamepad mark. */
    function FromGamepad(): Option<bool> {
      None
    }
  }

  /** How a directional control is asked for: by template name or by an
      explicit list of key names. */
  datatype KeysArg = TemplateName(name: string) | KeyList(keys: seq<string>)

  /** The control `directionalKeys(...)` returns: its label and the key
      each direction queries through `key(...)`. */
  datatype Directional = Directional(title: string, up: string, left: string, down: string, right: string)
  {
    /** A directional control carries no gamepad mark either. */
    function FromGamepad(): Option<bool> {
      None
    }
  }

  function Unit(b: bool): real {
    if b then 1.0 else 0.0
  }

  datatype KeyEvent = KeyEvent(key: string)

  // ---------------------------------------------------------------------
  // The tracker

  class Keyboard {
    const store: Store
    const table: KeyMap

    /** Keys held down now (normalised names). */
    var pressedKeys: set<string>
    /** Keys pressed and not yet reported by a trigger query. */
    var queuedKeys: set<string>

    /** Every queued key is held. The handlers and the trigger of a named
        key keep this; the trigger of "any" does not. */
    predicate QueuedHeld()
      reads this
    {
      queuedKeys <= pressedKeys
    }

    constructor (store: Store, table: KeyMap)
      ensures this.store == store && this.table == table
      ensures pressedKeys == {} && queuedKeys == {}
      ensures QueuedHeld()
    {
      this.store := store;
      this.table := table;
      pressedKeys := {};
      queuedKeys := {};
    }

    /** `keydown`: the key is held and queued; the preference moves away
        from the gamepad. */
    method OnKeyDown(e: KeyEvent)
      modifies this`pressedKeys, this`queuedKeys, store`preferGamepad
      ensures pressedKeys == old(pressedKeys) + {Normalise(e.key)}
      ensures queuedKeys == old(queuedKeys) + {Normalise(e.key)}
      ensures !store.preferGamepad
      ensures old(QueuedHeld()) ==> QueuedHeld()
    {
      store.preferGamepad := false;
      var key := e.key;
      if key == ToUpper(key) {
        key := ToLower(key);
      }
      pressedKeys := pressedKeys + {key};
      queuedKeys := queuedKeys + {key};
    }

    /** `keyup`: the key is neither held nor queued any more; the
        preference moves away from the gamepad. */
    method OnKeyUp(e: KeyEvent)
      modifies this`pressedKeys, this`queuedKeys, store`preferGamepad
      ensures pressedKeys == old(pressedKeys) - {Normalise(e.key)}
      ensures queuedKeys == old(queuedKeys) - {Normalise(e.key)}
      ensures !store.preferGamepad
      ensures old(QueuedHeld()) ==> QueuedHeld()
    {
      store.preferGamepad := false;
      var key := e.key;
      if key == ToUpper(key) {
        key := ToLower(key);
      }
      pressedKeys := pressedKeys - {key};
      queuedKeys := queuedKeys - {key};
    }

    /** `key(k)`: "any" is the wildcard; any other name is resolved to a
        key value and its label through the alias tables. */
    function Key(k: string): (r: Result<KeyControl>)
      ensures k == "any" ==> r == Ok(AnyKey)
      ensures k != "any" ==> (r.Ok? <==> k in table.values && table.values[k] in table.labels)
      ensures k != "any" && r.Ok? ==> r.value == NamedKey(table.values[k], table.labels[table.values[k]])
      ensures r.Err? ==> r.error == TableMiss
    {
      if k == "any" then Ok(AnyKey)
      else if k !in table.values then Err(TableMiss)
      else
        var value := table.values[k];
        if value !in table.labels then Err(TableMiss)
        else Ok(NamedKey(value, table.labels[value]))
    }

    /** `key(k).query()`: whether the key (for "any": some key) is held. */
    function Query(c: KeyControl): (r: bool)
      reads this
      ensures c.AnyKey? ==> (r <==> exists k :: k in pressedKeys)
      ensures c.NamedKey? ==> (r <==> c.value in pressedKeys)
    {
      match c
      case AnyKey => |pressedKeys| > 0
      case NamedKey(value, _) => value in pressedKeys
    }

    /** `key(k).query()` on a name, resolution included. */
    function Held(k: string): (r: Result<bool>)
      reads this
      ensures r.Ok? <==> Key(k).Ok?
      ensures r.Ok? ==> r.value == Query(Key(k).value)
      ensures r.Err? ==> r.error == TableMiss
    {
      match Key(k)
      case Err(e) => Err(e)
      case Ok(c) => Ok(Query(c))
    }

    /** `key(k).trigger.query()`: a queued key is reported once and
        unqueued. The wildcard reports whether any key is held and then
        forgets every held key, leaving the queue alone. */
    method Trigger(c: KeyControl) returns (fired: bool)
      modifies this`pressedKeys, this`queuedKeys
      ensures c.NamedKey? ==> fired == (c.value in old(queuedKeys))
      ensures c.NamedKey? ==> queuedKeys == old(queuedKeys) - {c.value} && pressedKeys == old(pressedKeys)
      ensures c.AnyKey? ==> fired == (old(pressedKeys) != {})
      ensures c.AnyKey? ==> pressedKeys == {} && queuedKeys == old(queuedKeys)
      ensures c.NamedKey? && old(QueuedHeld()) ==> QueuedHeld() && (fired ==> Query(c))
    {
      match c
      case AnyKey =>
        var size := |pressedKeys|;
        pressedKeys := {};
        fired := size > 0;
      case NamedKey(value, _) =>
        fired := value in queuedKeys;
        queuedKeys := queuedKeys - {value};
    }

    /** `directionalKeys(keys, label)`: a template's keys as they are, or
        the values of exactly four listed keys; the label given wins over
        the template's label or the joined key labels. */
    function DirectionalKeys(arg: KeysArg, title: Option<string>): (r: Result<Directional>)
      ensures arg.TemplateName? ==> (r.Ok? <==> FindTemplate(arg.name).Ok?)
      ensures arg.TemplateName? && r.Err? ==> r == Err(FindTemplate(arg.name).error)
      ensures arg.TemplateName? && r.Ok? ==>
                var t := FindTemplate(arg.name).value;
                r.value == Directional(if title.Some? then title.value else t.title, t.keys[0], t.keys[1], t.keys[2], t.keys[3])
      ensures arg.KeyList? && |arg.keys| != 4 ==> r == Err(Thrown("Directional key templates have to consist of four keys!"))
      ensures arg.KeyList? && |arg.keys| == 4 ==>
                (r.Ok? <==> (forall i :: 0 <= i < 4 ==> arg.keys[i] in table.values && arg.keys[i] in table.labels))
      ensures arg.KeyList? && r.Ok? ==>
                |arg.keys| == 4
                && r.value.up == table.values[arg.keys[0]] && r.value.left == table.values[arg.keys[1]]
                && r.value.down == table.values[arg.keys[2]] && r.value.right == table.values[arg.keys[3]]
                && r.value.title == (if title.Some? then title.value else JoinKeyLabels(table, arg.keys).value)
      ensures arg.KeyList? && r.Err? && |arg.keys| == 4 ==> r.error == TableMiss
    {
      match arg
      case TemplateName(name) =>
        (match FindTemplate(name)
         case Err(e) => Err(e)
         case Ok(t) =>
           Ok(Directional(if title.Some? then title.value else t.title, t.keys[0], t.keys[1], t.keys[2], t.keys[3])))
      case KeyList(keys) =>
        if |keys| != 4 then Err(Thrown("Directional key templates have to consist of four keys!"))
        else match FindKeyValues(table, keys)
          case Err(e) => Err(e)
          case Ok(values) =>
            match JoinKeyLabels(table, keys)
            case Err(e) => Err(e)
            case Ok(joined) =>
              Ok(Directional(if title.Some? then title.value else joined, values[0], values[1], values[2], values[3]))
    }

    /** `directionalKeys(...).query()`: each held direction nudges its
        axis by one (up and left negative), so opposite keys cancel; a
        key name the tables do not know throws, first in the order up,
        left, down, right. */
    method DirectionalQuery(d: Directional) returns (r: Result<Vector2>)
      ensures r.Ok? <==> Key(d.up).Ok? && Key(d.left).Ok? && Key(d.down).Ok? && Key(d.right).Ok?
      ensures r.Err? ==> r.error == TableMiss
      ensures r.Ok? ==>
                r.value == Vector2(Unit(Held(d.right).value) - Unit(Held(d.left).value),
                                   Unit(Held(d.down).value) - Unit(Held(d.up).value))
      ensures r.Ok? ==> r.value.x in {-1.0, 0.0, 1.0} && r.value.y in {-1.0, 0.0, 1.0}
    {
      var vector := ZeroVector;
      var up := Key(d.up);
      if up.Err? {
        return Err(up.error);
      }
      if Query(up.value) {
        vector := vector.(y := vector.y - 1.0);
      }
      var left := Key(d.left);
      if left.Err? {
        return Err(left.error);
      }
      if Query(left.value) {
        vector := vector.(x := vector.x - 1.0);
      }
      var down := Key(d.down);
      if down.Err? {
        return Err(down.error);
      }
      if Query(down.value) {
        vector := vector.(y := vector.y + 1.0);
      }
      var right := Key(d.right);
      if right.Err? {
        return Err(right.error);
      }
      if Query(right.value) {
        vector := vector.(x := vector.x + 1.0);
      }
      return Ok(vector);
    }
  }
}
