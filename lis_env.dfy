/**
 * The environments of `lis.php`: an `Env` object is a dictionary of values
 * and an optional outer `Env`. Frames are kept in an arena, a sequence in
 * which a frame is named by its index and its outer frame by an earlier
 * index; a `Lambda` holds the index of the frame it closed over. Unlike
 * lisp.php, lookup never fails: `find` stops at the last frame of the
 * chain and `at` answers false for a name that is not set there.
 */
module LisEnv {
  import opened Basics
  import opened LisValues

  datatype Frame = Frame(vals: map<string, Value>, outer: Option<nat>)

  /** `isset($this->values[$var])`: the name is bound, and not to null. */
  predicate Holds(f: Frame, name: string) {
    name in f.vals && f.vals[name] != Nil
  }

  /**
   * The outer frame of e. Frames are appended after the frame they extend,
   * so a link to a later frame cannot arise; it counts as no link.
   */
  function Outer(frames: seq<Frame>, e: nat): (r: Option<nat>)
    ensures r.Some? ==> r.value < e
  {
    if e < |frames| && frames[e].outer.Some? && frames[e].outer.value < e then frames[e].outer else None
  }

  /**
   * `Env::find`: the innermost frame, walking outward from e, that holds the
   * name; when none does, the frame where the walk stopped, the one with no
   * outer frame.
   */
  function Find(frames: seq<Frame>, e: nat, name: string): (r: nat)
    ensures r <= e
    ensures e < |frames| ==> r < |frames|
    decreases e
  {
    if e >= |frames| || Holds(frames[e], name) then e
    else match Outer(frames, e)
      case None => e
      case Some(o) => Find(frames, o, name)
  }

  /** `Env::at`: the value bound to the name in frame e, or false when it is not set there. */
  function At(frames: seq<Frame>, e: nat, name: string): Value {
    if e < |frames| && Holds(frames[e], name) then frames[e].vals[name] else Bool(false)
  }

  /** `$env->find($x)->at($x)`: the value of a variable reference. */
  function Lookup(frames: seq<Frame>, e: nat, name: string): (r: Value)
    ensures r != Nil
    ensures e < |frames| && Holds(frames[e], name) ==> r == frames[e].vals[name]
  {
    At(frames, Find(frames, e, name), name)
  }

  /** `Env::setAt`: binds the name in frame e itself, whatever its outer frames hold. */
  function SetAtF(frames: seq<Frame>, e: nat, name: string, v: Value): (r: seq<Frame>)
    ensures |r| == |frames|
    ensures e < |frames| ==> r[e].vals == frames[e].vals[name := v] && r[e].outer == frames[e].outer
    ensures forall j :: 0 <= j < |frames| && j != e ==> r[j] == frames[j]
  {
    if e < |frames| then frames[e := frames[e].(vals := frames[e].vals[name := v])] else frames
  }

  /**
   * `Env::update`: PHP's array union `$this->values + $values`, in which a
   * key already present keeps its value. Dafny's `+` on maps lets its right
   * operand win, so the old bindings go on the right.
   */
  function UpdateF(frames: seq<Frame>, e: nat, vals: map<string, Value>): (r: seq<Frame>)
    ensures |r| == |frames|
    ensures e < |frames| ==> r[e].vals.Keys == frames[e].vals.Keys + vals.Keys && r[e].outer == frames[e].outer
    ensures e < |frames| ==> forall n :: n in frames[e].vals ==> r[e].vals[n] == frames[e].vals[n]
    ensures e < |frames| ==> forall n :: n in vals && n !in frames[e].vals ==> r[e].vals[n] == vals[n]
    ensures forall j :: 0 <= j < |frames| && j != e ==> r[j] == frames[j]
  {
    if e < |frames| then frames[e := frames[e].(vals := vals + frames[e].vals)] else frames
  }

  /** The primitives `add_globals` installs. */
  function GlobalTable(): map<string, Value> {
    map[
      "+" := Prim(Add), "-" := Prim(Sub), "*" := Prim(Mul), "/" := Prim(Div),
      ">" := Prim(Gt), "<" := Prim(Lt), ">=" := Prim(Ge), "<=" := Prim(Le), "=" := Prim(NumEq),
      "equal?" := Prim(IsEqual), "eq?" := Prim(IsEq), "len" := Prim(Len),
      "not" := Prim(Not), "cons" := Prim(Cons), "car" := Prim(Car), "cdr" := Prim(Cdr),
      "append" := Prim(Append), "list" := Prim(ListOp), "list?" := Prim(IsList),
      "null?" := Prim(IsNull), "symbol?" := Prim(IsSymbol)]
  }

  /** Frame 0 is `$global_env`. */
  const GlobalEnv: nat := 0

  /** `$global_env = add_globals(new Env())`. */
  function InitialFrames(): seq<Frame> {
    UpdateF([Frame(map[], None)], GlobalEnv, GlobalTable())
  }

  /** The frames as objects whose value dictionaries are updated in place. */
  class Store {
    var frames: seq<Frame>

    /** `add_globals(new Env())`. */
    constructor ()
      ensures frames == InitialFrames()
    {
      frames := [Frame(map[], None)];
      new;
      Update(GlobalEnv, GlobalTable());
    }

    /** `$env->setAt($var, $val)`. */
    method SetAt(e: nat, name: string, v: Value)
      modifies this
      ensures frames == SetAtF(old(frames), e, name, v)
    {
      if e < |frames| {
        frames := frames[e := frames[e].(vals := frames[e].vals[name := v])];
      }
    }

    /** `$env->update($values)`. */
    method Update(e: nat, vals: map<string, Value>)
      modifies this
      ensures frames == UpdateF(old(frames), e, vals)
    {
      if e < |frames| {
        frames := frames[e := frames[e].(vals := vals + frames[e].vals)];
      }
    }

    /** `new Env($values, $outer)`: a fresh frame, appended to the arena. */
    method NewEnv(vals: map<string, Value>, outer: nat) returns (e: nat)
      modifies this
      ensures e == |old(frames)| && frames == old(frames) + [Frame(vals, Some(outer))]
    {
      e := |frames|;
      frames := frames + [Frame(vals, Some(outer))];
    }
  }
}
