/**
 * `_eval` of `lis.php` as functions of the frame arena: plain recursion on
 * the expression, with a fuel bound in place of PHP's unbounded recursion.
 * Each function answers the new frames and the result.
 */
module LisEval {
  import opened Basics
  import opened LisValues
  import opened LisEnv

  // ---------------------------------------------------------------- primitives

  /** The parameters each primitive closure declares; PHP rejects a call with fewer arguments. */
  function Arity(op: PrimOp): nat {
    match op
    case Not => 1
    case Car => 1
    case Cdr => 1
    case IsList => 1
    case IsNull => 1
    case IsSymbol => 1
    case Len => 1
    case ListOp => 0
    case _ => 2
  }

  /**
   * `$x + $y`, `$x - $y`, `$x * $y` on two numbers: two ints give an int
   * unless the result leaves the int range, anything else gives a float.
   * PHP's juggling of other operands is not modelled.
   */
  function Arith(op: PrimOp, x: Value, y: Value): (r: Result<Value>)
    requires op == Add || op == Sub || op == Mul
    ensures r.Ok? <==> IsNumber(x) && IsNumber(y)
    ensures r.Ok? ==> IsNumber(r.value)
    ensures r.Ok? && op == Add ==> r.value.n == x.n + y.n
    ensures r.Ok? && op == Sub ==> r.value.n == x.n - y.n
    ensures r.Ok? && op == Mul ==> r.value.n == x.n * y.n
    ensures r.Ok? ==> (r.value.Int? <==> x.Int? && y.Int? && IntMin <= r.value.n <= IntMax)
  {
    if IsNumber(x) && IsNumber(y) then
      var m := if op == Add then x.n + y.n else if op == Sub then x.n - y.n else x.n * y.n;
      Ok(if x.Int? && y.Int? then IntResult(m) else Num(m))
    else Err(Unmodelled)
  }

  /**
   * `$x / $y` on two numbers: division by zero is an error in PHP; an exact
   * quotient of two ints is an int unless it leaves the int range
   * (`PHP_INT_MIN / -1`), any other exact quotient a float; a quotient with
   * a fraction is a float the model does not follow.
   */
  function Divide(x: Value, y: Value): (r: Result<Value>)
    ensures r.Ok? <==> IsNumber(x) && IsNumber(y) && y.n != 0 && x.n % y.n == 0
    ensures r.Ok? ==> IsNumber(r.value) && r.value.n * y.n == x.n
    ensures r.Ok? ==> (r.value.Int? <==> x.Int? && y.Int? && IntMin <= r.value.n <= IntMax)
    ensures IsNumber(x) && IsNumber(y) && y.n == 0 ==> r == Err(HostError)
  {
    if !(IsNumber(x) && IsNumber(y)) then Err(Unmodelled)
    else if y.n == 0 then Err(HostError)
    else if x.n % y.n != 0 then Err(Unmodelled)
    else Ok(if x.Int? && y.Int? then IntResult(x.n / y.n) else Num(x.n / y.n))
  }

  /**
   * `>`, `<`, `>=`, `<=`, and `==` (`=`, `equal?`) on two numbers compare
   * their values; `===` (`eq?`) also demands the same PHP type, so an int is
   * never identical to a float.
   */
  function Compare(op: PrimOp, x: Value, y: Value): (r: Result<Value>)
    requires op == Gt || op == Lt || op == Ge || op == Le || op == NumEq || op == IsEqual || op == IsEq
    ensures r.Ok? <==> IsNumber(x) && IsNumber(y)
    ensures r.Ok? ==> r.value.Bool?
    ensures r.Ok? && op == Gt ==> (r.value.b <==> x.n > y.n)
    ensures r.Ok? && op == Lt ==> (r.value.b <==> x.n < y.n)
    ensures r.Ok? && op == Ge ==> (r.value.b <==> x.n >= y.n)
    ensures r.Ok? && op == Le ==> (r.value.b <==> x.n <= y.n)
    ensures r.Ok? && (op == NumEq || op == IsEqual) ==> (r.value.b <==> x.n == y.n)
    ensures r.Ok? && op == IsEq ==> (r.value.b <==> x.n == y.n && x.Int? == y.Int?)
  {
    if IsNumber(x) && IsNumber(y) then
      Ok(Bool(
        if op == Gt then x.n > y.n else if op == Lt then x.n < y.n else if op == Ge then x.n >= y.n
        else if op == Le then x.n <= y.n else if op == IsEq then x.n == y.n && x.Int? == y.Int?
        else x.n == y.n))
    else Err(Unmodelled)
  }

  /**
   * `$x == array()`: an empty array, and also null and false, which PHP
   * loosely equates with it; numbers and objects never are.
   */
  function LooselyEmpty(v: Value): bool {
    match v
    case List(items) => items == []
    case Nil => true
    case Bool(b) => !b
    case _ => false
  }

  /** A closure of `add_globals` applied to its arguments; extra arguments are ignored, as PHP does. */
  function ApplyPrim(op: PrimOp, args: seq<Value>): (r: Result<Value>)
    ensures |args| < Arity(op) ==> r == Err(HostError)
  {
    if |args| < Arity(op) then Err(HostError)
    else match op
      case Add => Arith(op, args[0], args[1])
      case Sub => Arith(op, args[0], args[1])
      case Mul => Arith(op, args[0], args[1])
      case Gt => Compare(op, args[0], args[1])
      case Lt => Compare(op, args[0], args[1])
      case Ge => Compare(op, args[0], args[1])
      case Le => Compare(op, args[0], args[1])
      case NumEq => Compare(op, args[0], args[1])
      case IsEqual => Compare(op, args[0], args[1])
      case IsEq => Compare(op, args[0], args[1])
      case Div => Divide(args[0], args[1])
      case Len => if args[0].List? then Ok(Int(|args[0].items|)) else Err(HostError)
      case Not =>
        var t := Truth(args[0]);
        if t.Err? then Err(t.fault) else Ok(Bool(!t.value))
      case Car => IndexValue(args[0], 0)
      case Cdr => IndexValue(args[0], 1)
      case Cons => if args[1].List? then Ok(List([args[0]] + args[1].items)) else Err(HostError)
      case Append =>
        if args[0].List? && args[1].List? then Ok(List(args[0].items + args[1].items)) else Err(HostError)
      case ListOp => Ok(List(args))
      case IsList => Ok(Bool(args[0].List?))
      case IsNull => Ok(Bool(LooselyEmpty(args[0])))
      case IsSymbol => Ok(Bool(args[0].Sym?))
  }

  // ---------------------------------------------------------------- binding

  /**
   * `(string)$var` for the variable of `set!` or `define`: a symbol's name,
   * or the empty text for a missing one. Other conversions are not modelled.
   */
  function NameOf(v: Value): (r: Result<string>)
    ensures r.Ok? <==> v.Sym? || v.Nil?
    ensures v.Sym? ==> r == Ok(v.name)
  {
    match v
    case Sym(name) => Ok(name)
    case Nil => Ok("")
    case _ => Err(Unmodelled)
  }

  /** The names of a parameter list, when every parameter is a symbol. */
  function Names(vars: seq<Value>): (r: Result<seq<string>>)
    ensures r.Ok? ==> |r.value| == |vars|
    ensures r.Ok? ==> forall i :: 0 <= i < |vars| ==> vars[i] == Sym(r.value[i])
  {
    if vars == [] then Ok([])
    else if !vars[0].Sym? then Err(Unmodelled)
    else
      var rest := Names(vars[1..]);
      if rest.Err? then rest else Ok([vars[0].name] + rest.value)
  }

  /** `array_combine($keys, $values)` on names: a later duplicate key overwrites an earlier one. */
  function Combine(names: seq<string>, vals: seq<Value>): map<string, Value>
    requires |names| == |vals|
  {
    if names == [] then map[]
    else Combine(names[..|names| - 1], vals[..|vals| - 1])[names[|names| - 1] := vals[|vals| - 1]]
  }

  /**
   * The dictionary of a `Lambda`'s new frame, `array_combine($vars, $args)`:
   * the parameters must be a list of symbols (a list of anything else is not
   * modelled) as long as the arguments; otherwise PHP raises an error.
   */
  function Bind(vars: Value, args: seq<Value>): (r: Result<map<string, Value>>)
    ensures r.Ok? ==> vars.List? && |vars.items| == |args|
    ensures vars.List? && |vars.items| != |args| ==> r == Err(HostError)
    ensures !vars.List? ==> r == Err(HostError)
  {
    if !vars.List? || |vars.items| != |args| then Err(HostError)
    else
      var names := Names(vars.items);
      if names.Err? then Err(names.fault) else Ok(Combine(names.value, args))
  }

  // ---------------------------------------------------------------- _eval

  /** `$x[0] == name` with `$x[0]` a symbol. */
  predicate IsForm(items: seq<Value>, name: string) {
    items != [] && items[0] == Sym(name)
  }

  /** `_eval($x, $env)`: symbols are looked up, lists are forms, anything else is a constant. */
  function Eval(fuel: nat, fs: seq<Frame>, x: Value, env: nat): (r: (seq<Frame>, Result<Value>))
    ensures |r.0| >= |fs|
    decreases fuel, 1, 0
  {
    match x
    case Sym(name) => (fs, Ok(Lookup(fs, env, name)))
    case List(items) => if fuel == 0 then (fs, Err(OutOfFuel)) else EvalForm(fuel, fs, items, env)
    case _ => (fs, Ok(x))
  }

  /** The branches of `_eval` for a list, tried in the source's order. */
  function EvalForm(fuel: nat, fs: seq<Frame>, items: seq<Value>, env: nat): (r: (seq<Frame>, Result<Value>))
    requires fuel > 0
    ensures |r.0| >= |fs|
    decreases fuel, 0, 0
  {
    if IsForm(items, "quote") then (fs, Ok(ItemAt(items, 1)))
    else if IsForm(items, "if") then
      var (fs1, t) := Eval(fuel - 1, fs, ItemAt(items, 1), env);
      if t.Err? then (fs1, t)
      else
        var b := Truth(t.value);
        if b.Err? then (fs1, Err(b.fault))
        else Eval(fuel - 1, fs1, if b.value then ItemAt(items, 2) else ItemAt(items, 3), env)
    else if IsForm(items, "set!") then
      var name := NameOf(ItemAt(items, 1));
      if name.Err? then (fs, Err(name.fault))
      else
        var k := Find(fs, env, name.value);
        var (fs1, v) := Eval(fuel - 1, fs, ItemAt(items, 2), env);
        if v.Err? then (fs1, v) else (SetAtF(fs1, k, name.value, v.value), Ok(Nil))
    else if IsForm(items, "define") then
      var (fs1, v) := Eval(fuel - 1, fs, ItemAt(items, 2), env);
      if v.Err? then (fs1, v)
      else
        var name := NameOf(ItemAt(items, 1));
        if name.Err? then (fs1, Err(name.fault)) else (SetAtF(fs1, env, name.value, v.value), Ok(Nil))
    else if IsForm(items, "lambda") then (fs, Ok(Lambda(items, env)))
    else if IsForm(items, "begin") then EvalSeq(fuel - 1, fs, items[1..], env, Nil)
    else
      var (fs1, vs) := EvalArgs(fuel - 1, fs, items, env, []);
      if vs.Err? then (fs1, Err(vs.fault))
      else if vs.value == [] then (fs1, Err(HostError))
      else Apply(fuel - 1, fs1, vs.value[0], vs.value[1..])
  }

  /** The `foreach` of `begin`: the value of the last expression, null when there is none. */
  function EvalSeq(fuel: nat, fs: seq<Frame>, xs: seq<Value>, env: nat, last: Value): (r: (seq<Frame>, Result<Value>))
    ensures |r.0| >= |fs|
    decreases fuel, 2, |xs|
  {
    if xs == [] then (fs, Ok(last))
    else
      var (fs1, v) := Eval(fuel, fs, xs[0], env);
      if v.Err? then (fs1, v) else EvalSeq(fuel, fs1, xs[1..], env, v.value)
  }

  /** The `array_map` of an application: every item's value, left to right, after those in acc. */
  function EvalArgs(fuel: nat, fs: seq<Frame>, xs: seq<Value>, env: nat, acc: seq<Value>): (r: (seq<Frame>, Result<seq<Value>>))
    ensures |r.0| >= |fs|
    ensures r.1.Ok? ==> |r.1.value| == |acc| + |xs| && r.1.value[..|acc|] == acc
    decreases fuel, 2, |xs|
  {
    if xs == [] then (fs, Ok(acc))
    else
      var (fs1, v) := Eval(fuel, fs, xs[0], env);
      if v.Err? then (fs1, Err(v.fault))
      else
        var r := EvalArgs(fuel, fs1, xs[1..], env, acc + [v.value]);
        assert r.1.Ok? ==> r.1.value[..|acc|] == (acc + [v.value])[..|acc|];
        r
  }

  /**
   * `call_user_func_array($proc, $args)`: a `Lambda` evaluates its body in a
   * new frame over the frame it closed over; a primitive computes; anything
   * else is not callable.
   */
  function Apply(fuel: nat, fs: seq<Frame>, f: Value, args: seq<Value>): (r: (seq<Frame>, Result<Value>))
    ensures |r.0| >= |fs|
    decreases fuel, 2, 0
  {
    match f
    case Lambda(form, cenv) =>
      var vals := Bind(ItemAt(form, 1), args);
      if vals.Err? then (fs, Err(vals.fault))
      else Eval(fuel, fs + [Frame(vals.value, Some(cenv))], ItemAt(form, 2), |fs|)
    case Prim(op) => (fs, ApplyPrim(op, args))
    case _ => (fs, Err(HostError))
  }
}
