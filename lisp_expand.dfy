/**
 * lisp.php's `expand`, the `let` macro and `macro_table`. Expansion checks
 * the syntax of special forms, rewrites a few of them into simpler ones,
 * and runs `define-macro` at top level, which evaluates the macro's
 * procedure and so may change the frames.
 */
module LispExpand {
  import opened Basics
  import opened LispValues
  import opened LispEnv
  import opened LispEval
  import opened LispQuasi

  /** An entry of `macro_table`: the built-in `let`, or a procedure from `define-macro`. */
  datatype Macro = LetMacro | UserMacro(proc: Value)

  type Macros = map<string, Macro>

  /** The table as the source leaves it before its own `define-macro and`. */
  function InitialMacros(): Macros {
    map["let" := LetMacro]
  }

  /** The interpreter state expansion threads along: frames, balls and the macro table. */
  datatype State = State(h: Heap, m: Macros)

  /** `expand($x, $toplevel)`. */
  function Expand(fuel: nat, s: State, x: Value, top: bool): (r: (State, Outcome))
    decreases fuel, 0, 0
  {
    if fuel == 0 then (s, Fail(OutOfFuel))
    else if x == List([]) || x == Str("") then (s, Fail(SyntaxError))
    else if !x.List? then (s, Normal(x))
    else
      var items := x.items;
      var head := items[0];
      if IsSym(head, "quote") then (s, if |items| == 2 then Normal(x) else Fail(SyntaxError))
      else if IsSym(head, "if") then
        var xs := if |items| == 3 then items + [NoneValue] else items;
        if |xs| != 4 then (s, Fail(SyntaxError)) else ExpandAll(fuel - 1, s, xs, false, [])
      else if IsSym(head, "set!") then
        if |items| != 3 || !items[1].Sym? then (s, Fail(SyntaxError))
        else
          var (s1, o) := Expand(fuel - 1, s, items[2], false);
          (s1, if o.Normal? then Normal(List([Sym("set!"), items[1], o.v])) else o)
      else if IsSym(head, "define") || IsSym(head, "define-macro") then
        ExpandDefine(fuel - 1, s, items, top)
      else if IsSym(head, "begin") then
        if |items| == 1 then (s, Normal(NoneValue)) else ExpandAll(fuel - 1, s, items, top, [])
      else if IsSym(head, "lambda") then
        if |items| < 3 then (s, Fail(SyntaxError))
        else
          var vars := items[1];
          if !((vars.List? && AllSymbols(vars.items)) || vars.Sym?) then (s, Fail(SyntaxError))
          else
            var body := if |items| == 3 then items[2] else List([Sym("begin")] + items[2..]);
            var (s1, o) := Expand(fuel - 1, s, body, false);
            (s1, if o.Normal? then Normal(List([Sym("lambda"), vars, o.v])) else o)
      else if IsSym(head, "quasiquote") then
        (s, if |items| == 2 then ExpandQuasi(fuel - 1, items[1]) else Fail(SyntaxError))
      else if head.Sym? && head.name in s.m then
        var (s1, o) := ApplyMacro(fuel - 1, s, s.m[head.name], items[1..]);
        if !o.Normal? then (s1, o) else Expand(fuel - 1, s1, o.v, top)
      else ExpandAll(fuel - 1, s, items, false, [])
  }

  /** The `define`/`define-macro` branch of `expand`; items[0] is the keyword. */
  function ExpandDefine(fuel: nat, s: State, items: seq<Value>, top: bool): (r: (State, Outcome))
    requires items != []
    decreases fuel, 0, 1
  {
    if fuel == 0 then (s, Fail(OutOfFuel))
    else if |items| < 3 then (s, Fail(SyntaxError))
    else
      var v := items[1];
      if IsPair(v) then
        Expand(fuel - 1, s, List([Sym("define"), v.items[0], List([Sym("lambda"), List(v.items[1..])] + items[2..])]), false)
      else if |items| != 3 || !v.Sym? then (s, Fail(SyntaxError))
      else
        var (s1, o) := Expand(fuel - 1, s, items[2], false);
        if !o.Normal? then (s1, o)
        else if !IsSym(items[0], "define-macro") then (s1, Normal(List([Sym("define"), v, o.v])))
        else if !top then (s1, Fail(SyntaxError))
        else
          var (h2, p) := Eval(fuel - 1, s1.h, o.v, GlobalEnv);
          if !p.Normal? then (State(h2, s1.m), p)
          else if !Callable(p.v) then (State(h2, s1.m), Fail(SyntaxError))
          else (State(h2, s1.m[v.name := UserMacro(p.v)]), Normal(NoneValue))
  }

  /** `array_map` of `expand` over xs, left to right, after the results in acc. */
  function ExpandAll(fuel: nat, s: State, xs: seq<Value>, top: bool, acc: seq<Value>): (r: (State, Outcome))
    ensures r.1.Normal? ==> r.1.v.List? && |r.1.v.items| == |acc| + |xs| && r.1.v.items[..|acc|] == acc
    decreases fuel, 1, |xs|
  {
    if xs == [] then (s, Normal(List(acc)))
    else
      var (s1, o) := Expand(fuel, s, xs[0], top);
      if !o.Normal? then (s1, o) else ExpandAll(fuel, s1, xs[1..], top, acc + [o.v])
  }

  /** `call_user_func_array` on a macro table entry. */
  function ApplyMacro(fuel: nat, s: State, mac: Macro, args: seq<Value>): (r: (State, Outcome))
    decreases fuel, 2, 0
  {
    match mac
    case LetMacro => Let(fuel, s, args)
    case UserMacro(p) =>
      var (h1, o) := Apply(fuel, s.h, p, args);
      (State(h1, s.m), o)
  }

  /** A `let` binding: a two-item list whose first item is a symbol. */
  predicate IsBinding(b: Value) {
    b.List? && |b.items| == 2 && b.items[0].Sym?
  }

  /**
   * `all(...)` over the binding list. `foreach` on a value that is neither an
   * array nor an object visits nothing, and so does `foreach` on a symbol or a
   * PHP closure, whose properties are not visible from outside them.
   */
  predicate AllBindings(bs: seq<Value>) {
    forall i :: 0 <= i < |bs| ==> IsBinding(bs[i])
  }

  /**
   * The `let` macro: `(let ((v e) ...) body...)` becomes
   * `((lambda (v ...) body...) e ...)`, with the values expanded before the body.
   */
  function Let(fuel: nat, s: State, args: seq<Value>): (r: (State, Outcome))
    decreases fuel, 0, 0
  {
    if fuel == 0 then (s, Fail(OutOfFuel))
    else if |args| <= 1 then (s, Fail(SyntaxError))
    else
      var bs := if args[0].List? then args[0].items else [];
      // `foreach` on a Procedure visits its public `env`, an Env object, which is no binding.
      if args[0].Closure? || !AllBindings(bs) then (s, Fail(SyntaxError))
      else
        var (s1, o1) := ExpandAll(fuel - 1, s, LetValues(bs), false, []);
        if !o1.Normal? then (s1, o1)
        else
          var (s2, o2) := ExpandAll(fuel - 1, s1, args[1..], false, []);
          if !o2.Normal? then (s2, o2)
          else (s2, Normal(List([List([Sym("lambda"), List(LetVars(bs))] + o2.v.items)] + o1.v.items)))
  }

  /** `_unzip`: the variables of the bindings, in order. */
  function LetVars(bs: seq<Value>): (r: seq<Value>)
    requires AllBindings(bs)
    ensures |r| == |bs| && forall i :: 0 <= i < |bs| ==> IsBinding(bs[i]) && r[i] == bs[i].items[0]
  {
    seq(|bs|, i requires 0 <= i < |bs| => assert IsBinding(bs[i]); bs[i].items[0])
  }

  /** `_unzip`: the value expressions of the bindings, in order. */
  function LetValues(bs: seq<Value>): (r: seq<Value>)
    requires AllBindings(bs)
    ensures |r| == |bs| && forall i :: 0 <= i < |bs| ==> IsBinding(bs[i]) && r[i] == bs[i].items[1]
  {
    seq(|bs|, i requires 0 <= i < |bs| => assert IsBinding(bs[i]); bs[i].items[1])
  }
}
