/** The `or` combinator: one control made of two or more, whose query is
    the first truthy query value in argument order and whose label follows
    the preferred input device. */
module Combinators {
  import opened Common

  /** A query value, as far as `or` looks at it. */
  datatype Value = Bool(b: bool) | Num(n: real) | Vec(v: Vector2) | Undefined

  /** JavaScript's `Boolean(value)`: an object such as a vector is always
      truthy, a number is truthy unless it is zero. */
  predicate Truthy(v: Value) {
    match v
    case Bool(b) => b
    case Num(n) => n != 0.0
    case Vec(_) => true
    case Undefined => false
  }

  /** A control over the state `W` of the devices it reads: its label,
      its query (which may change that state, as a trigger does, and may
      throw) and whether it comes from the gamepad (absent, false or true). */
  datatype Control<!W> = Control(title: string, query: W -> (Result<Value>, W), fromGamepad: Option<bool>)

  predicate IsGamepad<W>(c: Control<W>) {
    c.fromGamepad == Some(true)
  }

  predicate HasGamepad<W>(cs: seq<Control<W>>) {
    exists i :: 0 <= i < |cs| && IsGamepad(cs[i])
  }

  /** `or(...controls)`: fewer than two controls throw. */
  function Or<W>(cs: seq<Control<W>>): (r: Result<seq<Control<W>>>)
    ensures r.Ok? <==> |cs| >= 2
    ensures r.Ok? ==> r.value == cs
    ensures r.Err? ==> r.error == Thrown("Less than two controls specified!")
  {
    if |cs| < 2 then Err(Thrown("Less than two controls specified!")) else Ok(cs)
  }

  // ---------------------------------------------------------------------
  // Label

  /** The index of the first control `p` holds of, if any. */
  function FindIndex<W>(cs: seq<Control<W>>, p: Control<W> -> bool): (r: Option<nat>)
    ensures r.Some? ==> r.value < |cs| && p(cs[r.value])
    ensures r.Some? ==> forall j :: 0 <= j < r.value ==> !p(cs[j])
    ensures r.None? ==> forall j :: 0 <= j < |cs| ==> !p(cs[j])
    decreases |cs|
  {
    if cs == [] then None
    else if p(cs[0]) then Some(0)
    else match FindIndex(cs[1..], p)
      case None => None
      case Some(k) => Some(k + 1)
  }

  predicate IsFirstGamepad<W>(cs: seq<Control<W>>, i: int) {
    0 <= i < |cs| && IsGamepad(cs[i]) && forall j :: 0 <= j < i ==> !IsGamepad(cs[j])
  }

  predicate IsFirstOther<W>(cs: seq<Control<W>>, i: int) {
    0 <= i < |cs| && !IsGamepad(cs[i]) && forall j :: 0 <= j < i ==> IsGamepad(cs[j])
  }

  /** The `label` getter, read against the store's current flag: with no
      gamepad control, the first control's label; otherwise the first
      gamepad control's label when the gamepad is preferred, else the
      first other control's label, and "No control found!" when there is
      none. */
  function Label<W>(cs: seq<Control<W>>, store: Store): (r: Result<string>)
    reads store
    ensures !HasGamepad(cs) ==> r == if cs == [] then Err(TypeError) else Ok(cs[0].title)
    ensures HasGamepad(cs) && store.preferGamepad ==>
              r.Ok? && exists i :: IsFirstGamepad(cs, i) && r.value == cs[i].title
    ensures HasGamepad(cs) && !store.preferGamepad ==>
              (r.Err? <==> forall i :: 0 <= i < |cs| ==> IsGamepad(cs[i]))
    ensures HasGamepad(cs) && !store.preferGamepad && r.Ok? ==>
              exists i :: IsFirstOther(cs, i) && r.value == cs[i].title
    ensures HasGamepad(cs) && r.Err? ==> r.error == Thrown("No control found!")
  {
    if !HasGamepad(cs) then
      if cs == [] then Err(TypeError) else Ok(cs[0].title)
    else
      var found :=
        if store.preferGamepad then FindIndex(cs, (c: Control<W>) => IsGamepad(c))
        else FindIndex(cs, (c: Control<W>) => !IsGamepad(c));
      match found
      case None => Err(Thrown("No control found!"))
      case Some(i) => Ok(cs[i].title)
  }

  // ---------------------------------------------------------------------
  // Query

  /** The results and the final state when the controls of `cs` are
      queried one after another, each seeing the state the previous one
      left. */
  datatype Trace<W> = Trace(samples: seq<Result<Value>>, world: W)

  function Run<W>(cs: seq<Control<W>>, w: W): (t: Trace<W>)
    ensures |t.samples| == |cs|
    decreases |cs|
  {
    if cs == [] then Trace([], w)
    else
      var t := Run(cs[..|cs| - 1], w);
      var (v, w') := cs[|cs| - 1].query(t.world);
      Trace(t.samples + [v], w')
  }

  /** Querying a longer list starts by querying its prefix. */
  lemma {:induction false} RunPrefix<W>(cs: seq<Control<W>>, w: W, k: nat)
    requires k <= |cs|
    ensures Run(cs[..k], w).samples == Run(cs, w).samples[..k]
    decreases |cs|
  {
    if k < |cs| {
      var init := cs[..|cs| - 1];
      RunPrefix(init, w, k);
      assert init[..k] == cs[..k];
    } else {
      assert cs[..k] == cs;
    }
  }

  /** A control's result ends the loop when its query threw (the exception
      propagates out of `query`) or its value is truthy. */
  predicate Stops(s: Result<Value>) {
    s.Err? || Truthy(s.value)
  }

  /** What `query` returns when every control answered a falsy value:
      `false` if the last value was a boolean, `undefined` otherwise. */
  function Fallback(samples: seq<Result<Value>>): (r: Value)
    ensures !Truthy(r)
    ensures r == Bool(false) <==> samples != [] && samples[|samples| - 1].Ok? && samples[|samples| - 1].value.Bool?
  {
    if samples != [] && samples[|samples| - 1].Ok? && samples[|samples| - 1].value.Bool? then Bool(false) else Undefined
  }

  /** `or(...).query()`: queries the controls in order, each once, and
      stops at the first control that throws, whose error it passes on, or
      at the first truthy value, which it returns; controls after it are
      not queried. `queried` is how many were. */
  method Query<W>(cs: seq<Control<W>>, w0: W) returns (r: Result<Value>, w: W, queried: nat)
    ensures queried <= |cs|
    ensures w == Run(cs[..queried], w0).world
    ensures forall j :: 0 <= j < queried - 1 ==> !Stops(Run(cs[..queried], w0).samples[j])
    ensures queried > 0 && Stops(Run(cs[..queried], w0).samples[queried - 1]) ==>
              r == Run(cs[..queried], w0).samples[queried - 1]
    ensures queried == 0 || !Stops(Run(cs[..queried], w0).samples[queried - 1]) ==>
              queried == |cs| && r == Ok(Fallback(Run(cs, w0).samples))
  {
    ghost var samples: seq<Result<Value>> := [];
    var sample: Result<Value> := Ok(Undefined);
    var i := 0;
    w := w0;
    while i < |cs|
      invariant 0 <= i <= |cs|
      invariant Run(cs[..i], w0) == Trace(samples, w)
      invariant forall j :: 0 <= j < i ==> !Stops(samples[j])
      invariant i > 0 ==> sample == samples[i - 1]
    {
      var (v, w') := cs[i].query(w);
      assert cs[..i + 1][..i] == cs[..i];
      samples := samples + [v];
      w := w';
      sample := v;
      if v.Err? || Truthy(v.value) {
        return v, w, i + 1;
      }
      i := i + 1;
    }
    assert cs[..|cs|] == cs;
    r := if i > 0 && sample.value.Bool? then Ok(Bool(false)) else Ok(Undefined);
    queried := |cs|;
  }

  /** The query's end read off the full trace: the first control that
      throws or answers a truthy value, if there is one. */
  function FirstStop(samples: seq<Result<Value>>): (r: Option<nat>)
    ensures r.Some? ==> r.value < |samples| && Stops(samples[r.value])
    ensures r.Some? ==> forall j :: 0 <= j < r.value ==> !Stops(samples[j])
    ensures r.None? ==> forall j :: 0 <= j < |samples| ==> !Stops(samples[j])
    decreases |samples|
  {
    if samples == [] then None
    else if Stops(samples[0]) then Some(0)
    else match FirstStop(samples[1..])
      case None => None
      case Some(k) => Some(k + 1)
  }

  /** The controls `Query` queries are exactly those up to the first one
      that, in the sequential run of all controls, throws or answers a
      truthy value. */
  lemma {:induction false} QueriedUpToFirstStop<W>(cs: seq<Control<W>>, w0: W, queried: nat)
    requires queried <= |cs|
    requires forall j :: 0 <= j < queried - 1 ==> !Stops(Run(cs[..queried], w0).samples[j])
    requires queried > 0 && Stops(Run(cs[..queried], w0).samples[queried - 1])
    ensures FirstStop(Run(cs, w0).samples) == Some(queried - 1)
  {
    RunPrefix(cs, w0, queried);
    var all := Run(cs, w0).samples;
    var prefix := Run(cs[..queried], w0).samples;
    assert forall j :: 0 <= j < queried ==> all[j] == prefix[j];
  }
}
