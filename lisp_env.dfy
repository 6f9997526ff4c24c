/**
 * lisp.php's `Env`: chained frames, kept in an arena so that closures and
 * call frames can share a frame by its index. A frame's `outer` always
 * names an earlier frame; an index that does not is read as "no outer".
 */
module LispEnv {
  import opened Basics
  import opened LispValues

  datatype Frame = Frame(vals: map<string, Value>, outer: Option<nat>)

  /** The arena of frames and the number of `callcc` balls made so far. */
  datatype Heap = Heap(frames: seq<Frame>, balls: nat)

  /** `isset($this->values[$var])`: the name is bound to something other than null. */
  predicate Holds(f: Frame, name: string) {
    name in f.vals && f.vals[name] != Nil
  }

  /** The outer frame of frame e, when it has one. */
  function Outer(frames: seq<Frame>, e: nat): (r: Option<nat>)
    ensures r.Some? ==> r.value < e
  {
    if e < |frames| && frames[e].outer.Some? && frames[e].outer.value < e then frames[e].outer else None
  }

  /** `Env::find`: the innermost frame, walking outward from e, that holds the name. */
  function Find(frames: seq<Frame>, e: nat, name: string): (r: Result<nat>)
    ensures r.Ok? ==> r.value < |frames| && Holds(frames[r.value], name)
    ensures r.Err? ==> r.fault == LookupError
    decreases e
  {
    if e >= |frames| then Err(LookupError)
    else if Holds(frames[e], name) then Ok(e)
    else match Outer(frames, e)
      case None => Err(LookupError)
      case Some(o) => Find(frames, o, name)
  }

  /** `$env->find($x)->at($x)`: the value of a variable reference. */
  function Lookup(frames: seq<Frame>, e: nat, name: string): (r: Outcome)
    ensures r.Normal? <==> Find(frames, e, name).Ok?
    ensures r.Normal? ==> r.v != Nil
    ensures r.Fail? ==> r.fault == LookupError
  {
    match Find(frames, e, name)
    case Ok(k) => Normal(frames[k].vals[name])
    case Err(f) => Fail(f)
  }

  function Put(f: Frame, name: string, v: Value): Frame {
    f.(vals := f.vals[name := v])
  }

  /**
   * `Env::setAt`: the write goes to the immediate outer frame when that frame
   * already holds the name, and to frame e otherwise.
   */
  function SetAtF(frames: seq<Frame>, e: nat, name: string, v: Value): (r: seq<Frame>)
    ensures |r| == |frames|
  {
    if e >= |frames| then frames
    else match Outer(frames, e)
      case Some(o) =>
        if Holds(frames[o], name) then frames[o := Put(frames[o], name, v)]
        else frames[e := Put(frames[e], name, v)]
      case None => frames[e := Put(frames[e], name, v)]
  }

  /** `Env::update`: one `setAt` per name/value pair, in order. */
  function UpdateF(frames: seq<Frame>, e: nat, names: seq<string>, vals: seq<Value>): (r: seq<Frame>)
    requires |names| == |vals|
    ensures |r| == |frames|
    decreases |names|
  {
    if names == [] then frames
    else UpdateF(SetAtF(frames, e, names[0], vals[0]), e, names[1..], vals[1..])
  }

  predicate AllSymbols(vs: seq<Value>) {
    forall i :: 0 <= i < |vs| ==> vs[i].Sym?
  }

  function Names(vs: seq<Value>): (r: seq<string>)
    requires AllSymbols(vs)
    ensures |r| == |vs| && forall i :: 0 <= i < |vs| ==> r[i] == vs[i].name
  {
    if vs == [] then [] else [vs[0].name] + Names(vs[1..])
  }

  predicate Distinct(names: seq<string>) {
    forall i, j :: 0 <= i < j < |names| ==> names[i] != names[j]
  }

  /** The first position of k in ks. */
  function IndexOf(ks: seq<string>, k: string): (i: nat)
    requires k in ks
    ensures i < |ks| && ks[i] == k && k !in ks[..i]
  {
    if ks[0] == k then 0 else 1 + IndexOf(ks[1..], k)
  }

  /**
   * `array_combine($parms, $args)` as the pairs `update`'s `foreach` visits:
   * each name once, at the position of its first occurrence, with the value
   * of its last occurrence.
   */
  function Combined(names: seq<string>, vals: seq<Value>): (r: (seq<string>, seq<Value>))
    requires |names| == |vals|
    ensures |r.0| == |r.1| && Distinct(r.0)
    ensures forall k :: k in r.0 <==> k in names
    decreases |names|
  {
    if names == [] then ([], [])
    else
      var n := |names| - 1;
      var p := Combined(names[..n], vals[..n]);
      if names[n] in p.0 then (p.0, p.1[IndexOf(p.0, names[n]) := vals[n]])
      else (p.0 + [names[n]], p.1 + [vals[n]])
  }

  /**
   * `new Env($parms, $args, $outer)`, appended to the arena: a symbol
   * receives the whole argument list through `setAt`; a list of symbols
   * needs exactly as many arguments, which are combined with the names
   * first and then bound pair by pair through `update`. A parameter that is
   * not a symbol becomes a string key in `array_combine`; the model does not
   * follow that conversion and answers Unmodelled.
   */
  function NewFrame(frames: seq<Frame>, parms: Value, args: seq<Value>, outer: Option<nat>): (r: Result<seq<Frame>>)
    ensures r.Ok? ==> |r.value| == |frames| + 1
  {
    var e := |frames|;
    var fs := frames + [Frame(map[], outer)];
    if parms.Sym? then Ok(SetAtF(fs, e, parms.name, List(args)))
    else if !parms.List? then Err(HostError)
    else if |args| != |parms.items| then Err(TypeError)
    else if !AllSymbols(parms.items) then Err(Unmodelled)
    else
      var c := Combined(Names(parms.items), args);
      Ok(UpdateF(fs, e, c.0, c.1))
  }

  /** The names of the modelled primitives, as `add_globals` binds them. */
  function PrimitiveTable(): (r: map<string, Value>)
    ensures forall name :: name in r ==> r[name].Prim?
  {
    map[
      "+" := Prim(Add), "-" := Prim(Sub), "*" := Prim(Mul),
      "<" := Prim(Lt), ">" := Prim(Gt), "<=" := Prim(Le), ">=" := Prim(Ge), "=" := Prim(NumEq),
      "not" := Prim(Not), "length" := Prim(Length),
      "car" := Prim(Car), "cdr" := Prim(Cdr), "cons" := Prim(ConsOp), "append" := Prim(Append),
      "list" := Prim(ListOp), "null?" := Prim(IsNull), "call/cc" := Prim(CallCC)]
  }

  /** Frame 0 is `global_env()`. */
  const GlobalEnv: nat := 0

  function InitialHeap(): Heap {
    Heap([Frame(PrimitiveTable(), None)], 0)
  }

  // ---------------------------------------------------------------- the mutable store

  /** The frames as objects the evaluator updates in place. */
  class Store {
    var frames: seq<Frame>
    var balls: nat

    constructor ()
      ensures frames == InitialHeap().frames && balls == 0
    {
      frames := InitialHeap().frames;
      balls := 0;
    }

    function Snapshot(): Heap
      reads this
    {
      Heap(frames, balls)
    }

    /** `Env::setAt` on frame e. */
    method SetAt(e: nat, name: string, v: Value)
      modifies this
      ensures frames == SetAtF(old(frames), e, name, v) && balls == old(balls)
    {
      if e < |frames| {
        var o := Outer(frames, e);
        if o.Some? && Holds(frames[o.value], name) {
          frames := frames[o.value := Put(frames[o.value], name, v)];
        } else {
          frames := frames[e := Put(frames[e], name, v)];
        }
      }
    }

    /** `Env::update`: its `foreach` over the name/value pairs. */
    method Update(e: nat, names: seq<string>, vals: seq<Value>)
      requires |names| == |vals|
      modifies this
      ensures frames == UpdateF(old(frames), e, names, vals) && balls == old(balls)
    {
      var i := 0;
      while i < |names|
        invariant 0 <= i <= |names|
        invariant balls == old(balls)
        invariant UpdateF(frames, e, names[i..], vals[i..]) == UpdateF(old(frames), e, names, vals)
      {
        SetAt(e, names[i], vals[i]);
        assert names[i..][1..] == names[i + 1..] && vals[i..][1..] == vals[i + 1..];
        i := i + 1;
      }
    }

    /** `new Env(...)`: the index of the new frame, or the exception the constructor throws. */
    method NewEnv(parms: Value, args: seq<Value>, outer: Option<nat>) returns (r: Result<nat>)
      modifies this
      ensures balls == old(balls)
      ensures match NewFrame(old(frames), parms, args, outer)
              case Ok(fs) => r == Ok(|old(frames)|) && frames == fs
              case Err(f) => r == Err(f) && frames == old(frames)
    {
      var e := |frames|;
      if parms.Sym? {
        frames := frames + [Frame(map[], outer)];
        SetAt(e, parms.name, List(args));
        r := Ok(e);
      } else if !parms.List? {
        r := Err(HostError);
      } else if |args| != |parms.items| {
        r := Err(TypeError);
      } else if !AllSymbols(parms.items) {
        r := Err(Unmodelled);
      } else {
        var c := Combined(Names(parms.items), args);
        frames := frames + [Frame(map[], outer)];
        Update(e, c.0, c.1);
        r := Ok(e);
      }
    }

    /** `new RuntimeWarning(...)` in `callcc`: a ball no earlier call has. */
    method NewBall() returns (t: nat)
      modifies this
      ensures t == old(balls) && balls == old(balls) + 1 && frames == old(frames)
    {
      t := balls;
      balls := balls + 1;
    }
  }
}
