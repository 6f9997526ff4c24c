/**
 * lisp.php's `_eval`, `callcc` and the modelled part of `add_globals`, as
 * functions over the frame arena. `fuel` bounds the number of evaluation
 * steps; every result reached with fuel to spare is the source's result.
 */
module LispEval {
  import opened Basics
  import opened LispValues
  import opened LispEnv

  /** The number of parameters of each primitive's PHP closure (`list` takes any). */
  function Arity(op: PrimOp): nat {
    match op
    case Not => 1
    case Length => 1
    case Car => 1
    case Cdr => 1
    case IsNull => 1
    case CallCC => 1
    case ListOp => 0
    case _ => 2
  }

  /** The outcome of a primitive's PHP closure; extra arguments are ignored, as PHP does. */
  function ApplyPrim(op: PrimOp, args: seq<Value>): (r: Outcome)
    requires !op.CallCC?
    ensures !r.Escape?
    ensures |args| < Arity(op) ==> r == Fail(HostError)
  {
    if |args| < Arity(op) then Fail(HostError)
    else match op
      case Add => Arith(args[0], args[1], (a, b) => a + b)
      case Sub => Arith(args[0], args[1], (a, b) => a - b)
      case Mul => Arith(args[0], args[1], (a, b) => a * b)
      case Lt => Compare(args[0], args[1], (a, b) => a < b)
      case Gt => Compare(args[0], args[1], (a, b) => a > b)
      case Le => Compare(args[0], args[1], (a, b) => a <= b)
      case Ge => Compare(args[0], args[1], (a, b) => a >= b)
      case NumEq => Compare(args[0], args[1], (a, b) => a == b)
      case Not => Normal(Bool(!Truthy(args[0])))
      case Length => if args[0].List? then Normal(Num(|args[0].items|)) else Fail(HostError)
      case Car => IndexValue(args[0], 0)
      case Cdr => if args[0].List? then Normal(List(if args[0].items == [] then [] else args[0].items[1..])) else Fail(HostError)
      case ConsOp => if args[1].List? then Normal(Cons(args[0], args[1].items)) else Fail(HostError)
      case Append => if args[0].List? && args[1].List? then Normal(List(args[0].items + args[1].items)) else Fail(HostError)
      case ListOp => Normal(List(args))
      case IsNull => Normal(Bool(args[0] == List([]) || args[0] == NoneValue || args[0] == Nil))
  }

  function Arith(x: Value, y: Value, f: (int, int) -> int): (r: Outcome)
    ensures r.Normal? <==> x.Num? && y.Num?
    ensures r.Normal? ==> r.v.Num?
    ensures r.Fail? ==> r.fault == Unmodelled
  {
    if x.Num? && y.Num? then Normal(Num(f(x.n, y.n))) else Fail(Unmodelled)
  }

  function Compare(x: Value, y: Value, f: (int, int) -> bool): (r: Outcome)
    ensures r.Normal? <==> x.Num? && y.Num?
    ensures r.Normal? ==> r.v.Bool?
    ensures r.Fail? ==> r.fault == Unmodelled
  {
    if x.Num? && y.Num? then Normal(Bool(f(x.n, y.n))) else Fail(Unmodelled)
  }

  /** Evaluation only adds frames and balls: it never removes either. */
  predicate Grows(h: Heap, h': Heap) {
    |h'.frames| >= |h.frames| && h'.balls >= h.balls
  }

  /** `_eval($x, $env)`. */
  function Eval(fuel: nat, h: Heap, x: Value, env: nat): (r: (Heap, Outcome))
    ensures Grows(h, r.0)
    decreases fuel, 0, 1
  {
    if fuel == 0 then (h, Fail(OutOfFuel))
    else match x
      case Sym(name) => (h, Lookup(h.frames, env, name))
      case List(items) => EvalForm(fuel, h, items, env)
      case _ => (h, Normal(x))
  }

  /** One turn of `_eval`'s loop on a list; a user procedure's body continues in its new frame. */
  function EvalForm(fuel: nat, h: Heap, items: seq<Value>, env: nat): (r: (Heap, Outcome))
    ensures Grows(h, r.0)
    requires fuel > 0
    decreases fuel, 0, 0
  {
    var head := At(items, 0);
    if IsSym(head, "quote") then (h, Normal(At(items, 1)))
    else if IsSym(head, "if") then
      var (h1, t) := Eval(fuel - 1, h, At(items, 1), env);
      if !t.Normal? then (h1, t)
      else Eval(fuel - 1, h1, if Truthy(t.v) then At(items, 2) else At(items, 3), env)
    else if IsSym(head, "set!") then
      var name := At(items, 1);
      if !name.Sym? then (h, Fail(Unmodelled))
      else match Find(h.frames, env, name.name)
        case Err(f) => (h, Fail(f))
        case Ok(k) =>
          var (h1, o) := Eval(fuel - 1, h, At(items, 2), env);
          if !o.Normal? then (h1, o)
          else (h1.(frames := SetAtF(h1.frames, k, name.name, o.v)), Normal(NoneValue))
    else if IsSym(head, "define") then
      var name := At(items, 1);
      var (h1, o) := Eval(fuel - 1, h, At(items, 2), env);
      if !o.Normal? then (h1, o)
      else if !name.Sym? then (h1, Fail(Unmodelled))
      else (h1.(frames := SetAtF(h1.frames, env, name.name, o.v)), Normal(NoneValue))
    else if IsSym(head, "lambda") then (h, Normal(Closure(At(items, 1), At(items, 2), env)))
    else if IsSym(head, "begin") then EvalSeq(fuel - 1, h, items[1..], env, Nil)
    else
      var (h1, o) := EvalArgs(fuel - 1, h, items, env, []);
      if !o.Normal? then (h1, o)
      else if items == [] then (h1, Fail(HostError))
      else
        var proc := o.v.items[0];
        var args := o.v.items[1..];
        if proc.Closure? then
          match NewFrame(h1.frames, proc.parms, args, Some(proc.env))
          case Err(f) => (h1, Fail(f))
          case Ok(fs) => Eval(fuel - 1, h1.(frames := fs), proc.body, |h1.frames|)
        else Apply(fuel - 1, h1, proc, args)
  }

  /** `begin`'s `foreach`: the value of the last form, or `last` when there is none. */
  function EvalSeq(fuel: nat, h: Heap, xs: seq<Value>, env: nat, last: Value): (r: (Heap, Outcome))
    ensures Grows(h, r.0)
    decreases fuel, 1, |xs|
  {
    if xs == [] then (h, Normal(last))
    else
      var (h1, o) := Eval(fuel, h, xs[0], env);
      if !o.Normal? then (h1, o) else EvalSeq(fuel, h1, xs[1..], env, o.v)
  }

  /** The `array_map` over an application's items, left to right, after the values in acc. */
  function EvalArgs(fuel: nat, h: Heap, xs: seq<Value>, env: nat, acc: seq<Value>): (r: (Heap, Outcome))
    ensures Grows(h, r.0)
    ensures r.1.Normal? ==> r.1.v.List? && |r.1.v.items| == |acc| + |xs| && r.1.v.items[..|acc|] == acc
    decreases fuel, 1, |xs|
  {
    if xs == [] then (h, Normal(List(acc)))
    else
      var (h1, o) := Eval(fuel, h, xs[0], env);
      if !o.Normal? then (h1, o) else EvalArgs(fuel, h1, xs[1..], env, acc + [o.v])
  }

  /**
   * Calling a value as PHP does: a procedure's `__invoke`, a primitive's
   * closure, or an escape closure, which throws its ball.
   */
  function Apply(fuel: nat, h: Heap, proc: Value, args: seq<Value>): (r: (Heap, Outcome))
    ensures Grows(h, r.0)
    decreases fuel, 0, 0
  {
    if fuel == 0 then (h, Fail(OutOfFuel))
    else match proc
      case Closure(parms, body, e) =>
        (match NewFrame(h.frames, parms, args, Some(e))
         case Err(f) => (h, Fail(f))
         case Ok(fs) => Eval(fuel - 1, h.(frames := fs), body, |h.frames|))
      case Prim(op) => if op.CallCC? then Callcc(fuel - 1, h, args) else (h, ApplyPrim(op, args))
      case Escaper(t) => (h, if args == [] then Fail(HostError) else Escape(t, args[0]))
      case _ => (h, Fail(HostError))
  }

  /** `callcc`: call args[0] with a fresh escape closure and catch only that closure's ball. */
  function Callcc(fuel: nat, h: Heap, args: seq<Value>): (r: (Heap, Outcome))
    ensures Grows(h, r.0)
    ensures !(r.1.Escape? && r.1.ball == h.balls)
    decreases fuel, 0, 0
  {
    if fuel == 0 then (h, Fail(OutOfFuel))
    else if args == [] then (h, Fail(HostError))
    else
      var t := h.balls;
      var (h1, o) := Apply(fuel - 1, h.(balls := t + 1), args[0], [Escaper(t)]);
      if o.Escape? && o.ball == t then (h1, Normal(o.v)) else (h1, o)
  }
}
