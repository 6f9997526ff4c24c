/** What lis.php's `_eval` and its primitives promise. */
module LisEvalProps {
  import opened Basics
  import opened LisValues
  import opened LisEnv
  import opened LisEval
  import LisEnvProps

  /** `quote` answers its operand as it is, without evaluating it. */
  lemma EvalQuoteUnevaluated(fuel: nat, fs: seq<Frame>, e: Value, env: nat)
    requires fuel >= 1
    ensures Eval(fuel, fs, List([Sym("quote"), e]), env) == (fs, Ok(e))
  {
  }

  /**
   * `if` evaluates the test, then only the branch the test selects: the
   * other branch never affects the result or the frames.
   */
  lemma EvalIfChoosesBranch(fuel: nat, fs: seq<Frame>, test: Value, conseq: Value, alt: Value, other: Value, env: nat)
    requires fuel >= 1
    ensures var (fs1, t) := Eval(fuel - 1, fs, test, env);
      t.Ok? && Truth(t.value).Ok? ==>
        Eval(fuel, fs, List([Sym("if"), test, conseq, alt]), env) ==
        Eval(fuel - 1, fs1, if Truth(t.value).value then conseq else alt, env)
    ensures var (fs1, t) := Eval(fuel - 1, fs, test, env);
      t.Ok? && Truth(t.value) == Ok(true) ==>
        Eval(fuel, fs, List([Sym("if"), test, conseq, alt]), env) ==
        Eval(fuel, fs, List([Sym("if"), test, conseq, other]), env)
    ensures var (fs1, t) := Eval(fuel - 1, fs, test, env);
      t.Ok? && Truth(t.value) == Ok(false) ==>
        Eval(fuel, fs, List([Sym("if"), test, conseq, alt]), env) ==
        Eval(fuel, fs, List([Sym("if"), test, other, alt]), env)
  {
  }

  /** A three-item `if` whose test is false answers null, the alternative `list()` found missing. */
  lemma EvalIfWithoutAlternative(fuel: nat, fs: seq<Frame>, test: Value, conseq: Value, env: nat)
    requires fuel >= 1
    ensures var (fs1, t) := Eval(fuel - 1, fs, test, env);
      t.Ok? && Truth(t.value) == Ok(false) ==> Eval(fuel, fs, List([Sym("if"), test, conseq]), env) == (fs1, Ok(Nil))
  {
    var (fs1, t) := Eval(fuel - 1, fs, test, env);
    assert ItemAt([Sym("if"), test, conseq], 3) == Nil;
    assert Eval(fuel - 1, fs1, Nil, env) == (fs1, Ok(Nil));
  }

  /**
   * `begin` evaluates its forms in order and answers the value of the last;
   * the forms before it count only through the frames they leave.
   */
  lemma {:induction false} EvalSeqLast(fuel: nat, fs: seq<Frame>, xs: seq<Value>, y: Value, env: nat, last: Value)
    ensures EvalSeq(fuel, fs, xs + [y], env, last) ==
      var (fs1, v) := EvalSeq(fuel, fs, xs, env, last);
      if v.Ok? then Eval(fuel, fs1, y, env) else (fs1, v)
    decreases |xs|
  {
    if xs == [] {
      assert [y][1..] == [];
    } else {
      assert (xs + [y])[1..] == xs[1..] + [y];
      var (fs1, v) := Eval(fuel, fs, xs[0], env);
      if v.Ok? {
        EvalSeqLast(fuel, fs1, xs[1..], y, env, v.value);
      }
    }
  }

  /** `(begin)` answers null: `$val` is never assigned. */
  lemma EvalEmptyBegin(fuel: nat, fs: seq<Frame>, env: nat)
    requires fuel >= 1
    ensures Eval(fuel, fs, List([Sym("begin")]), env) == (fs, Ok(Nil))
  {
    assert [Sym("begin")][1..] == [];
    assert EvalSeq(fuel - 1, fs, [], env, Nil) == (fs, Ok(Nil));
    assert Eval(fuel, fs, List([Sym("begin")]), env) == EvalForm(fuel, fs, [Sym("begin")], env);
  }

  /**
   * `set!` looks up the frame before evaluating its expression and writes
   * the value there through `setAt`; it answers null.
   */
  lemma EvalSetWritesFound(fuel: nat, fs: seq<Frame>, name: string, e: Value, env: nat)
    requires fuel >= 1
    ensures var (fs1, v) := Eval(fuel - 1, fs, e, env);
      v.Ok? ==>
        Eval(fuel, fs, List([Sym("set!"), Sym(name), e]), env) ==
        (SetAtF(fs1, Find(fs, env, name), name, v.value), Ok(Nil))
  {
  }

  /**
   * `set!` of a name no frame of the chain holds raises nothing: `find`
   * stops at the root of the chain, and the name is bound there.
   */
  lemma EvalSetUnboundWritesRoot(fuel: nat, fs: seq<Frame>, name: string, e: Value, env: nat)
    requires fuel >= 1 && env < |fs|
    requires LisEnvProps.FirstHolder(fs, LisEnvProps.Chain(fs, env), name).None?
    ensures var k := Find(fs, env, name);
      var (fs1, v) := Eval(fuel - 1, fs, e, env);
      k < |fs| && Outer(fs, k).None? &&
      (v.Ok? ==> Eval(fuel, fs, List([Sym("set!"), Sym(name), e]), env) == (SetAtF(fs1, k, name, v.value), Ok(Nil)))
  {
    LisEnvProps.FindUnboundStopsAtRoot(fs, env, name);
  }

  /**
   * After `(set! name e)` the name reads, from the same frame, as the value
   * of e, provided evaluating e left the chain's bindings of the name as
   * they were.
   */
  lemma EvalSetThenLookup(fuel: nat, fs: seq<Frame>, name: string, e: Value, env: nat)
    requires fuel >= 1 && env < |fs|
    ensures var (fs1, v) := Eval(fuel - 1, fs, e, env);
      v.Ok? && v.value != Nil && fs1 == fs ==>
        var (fs2, r) := Eval(fuel, fs, List([Sym("set!"), Sym(name), e]), env);
        r == Ok(Nil) && Lookup(fs2, env, name) == v.value
  {
    var (fs1, v) := Eval(fuel - 1, fs, e, env);
    if v.Ok? && v.value != Nil && fs1 == fs {
      LisEnvProps.LookupAfterSetAtFound(fs, env, name, v.value);
    }
  }

  /**
   * `define` binds the name in the current frame alone, whatever an outer
   * frame holds: afterwards the name reads as the value from that frame,
   * and every other name reads as before.
   */
  lemma EvalDefineBinds(fuel: nat, fs: seq<Frame>, name: string, e: Value, env: nat, other: string)
    requires fuel >= 1 && other != name
    ensures var (fs1, v) := Eval(fuel - 1, fs, e, env);
      v.Ok? && v.value != Nil && env < |fs1| ==>
        var (fs2, r) := Eval(fuel, fs, List([Sym("define"), Sym(name), e]), env);
        r == Ok(Nil) && Lookup(fs2, env, name) == v.value &&
        Lookup(fs2, env, other) == Lookup(fs1, env, other)
  {
    var (fs1, v) := Eval(fuel - 1, fs, e, env);
    if v.Ok? && v.value != Nil && env < |fs1| {
      var fs2 := SetAtF(fs1, env, name, v.value);
      assert Holds(fs2[env], name);
      LisEnvProps.SetAtKeepsOtherNames(fs1, env, name, v.value, env, other);
    }
  }

  /** A `lambda` form evaluates to itself, closed over the current frame, and changes nothing. */
  lemma EvalLambdaCloses(fuel: nat, fs: seq<Frame>, vars: Value, body: Value, env: nat)
    requires fuel >= 1
    ensures Eval(fuel, fs, List([Sym("lambda"), vars, body]), env) == (fs, Ok(Lambda([Sym("lambda"), vars, body], env)))
  {
  }

  /** An item list whose head names none of the special forms. */
  predicate IsApplication(items: seq<Value>) {
    items != [] &&
    forall k :: k in ["quote", "if", "set!", "define", "lambda", "begin"] ==> !IsForm(items, k)
  }

  /**
   * Any other list is an application: all its items are evaluated, left to
   * right, and the first value is called with the others.
   */
  lemma EvalApplication(fuel: nat, fs: seq<Frame>, items: seq<Value>, env: nat, fs1: seq<Frame>, vs: seq<Value>)
    requires fuel >= 1 && IsApplication(items)
    requires EvalArgs(fuel - 1, fs, items, env, []) == (fs1, Ok(vs))
    ensures |vs| == |items| && Eval(fuel, fs, List(items), env) == Apply(fuel - 1, fs1, vs[0], vs[1..])
  {
    assert !IsForm(items, "quote") && !IsForm(items, "if") && !IsForm(items, "set!");
    assert !IsForm(items, "define") && !IsForm(items, "lambda") && !IsForm(items, "begin");
  }

  /**
   * Calling a `Lambda` evaluates its body in one new frame, appended to the
   * arena, that binds its parameters to the arguments and whose outer frame
   * is the one the `lambda` form was evaluated in.
   */
  lemma ApplyLambdaBinds(fuel: nat, fs: seq<Frame>, names: seq<string>, body: Value, cenv: nat, args: seq<Value>)
    requires |names| == |args|
    ensures var vars := seq(|names|, i requires 0 <= i < |names| => Sym(names[i]));
      Apply(fuel, fs, Lambda([Sym("lambda"), List(vars), body], cenv), args) ==
        Eval(fuel, fs + [Frame(Combine(names, args), Some(cenv))], body, |fs|)
  {
    var vars := seq(|names|, i requires 0 <= i < |names| => Sym(names[i]));
    NamesOfSymbols(names, vars);
  }

  lemma {:induction false} NamesOfSymbols(names: seq<string>, vars: seq<Value>)
    requires |vars| == |names| && forall i :: 0 <= i < |names| ==> vars[i] == Sym(names[i])
    ensures Names(vars) == Ok(names)
    decreases |names|
  {
    if names != [] {
      assert forall i :: 0 <= i < |names| - 1 ==> vars[1..][i] == Sym(names[1..][i]);
      NamesOfSymbols(names[1..], vars[1..]);
      assert vars[0] == Sym(names[0]);
      assert [names[0]] + names[1..] == names;
    }
  }

  /** A `Lambda` called with a different number of arguments than it has parameters is a PHP error. */
  lemma ApplyArityMismatch(fuel: nat, fs: seq<Frame>, vars: seq<Value>, body: Value, cenv: nat, args: seq<Value>)
    requires |args| != |vars|
    ensures Apply(fuel, fs, Lambda([Sym("lambda"), List(vars), body], cenv), args) == (fs, Err(HostError))
  {
  }

  /** Bound names of `array_combine`: each parameter, bound to its argument or, for a repeated name, to the last. */
  lemma {:induction false} CombineBindsLast(names: seq<string>, vals: seq<Value>, i: nat)
    requires |names| == |vals| && i < |names|
    requires forall j :: i < j < |names| ==> names[j] != names[i]
    ensures names[i] in Combine(names, vals) && Combine(names, vals)[names[i]] == vals[i]
    decreases |names|
  {
    var n := |names| - 1;
    if i < n {
      CombineBindsLast(names[..n], vals[..n], i);
    }
  }

  /** `car` and `cdr` of `cons`: `car` gives the head, and `cdr` gives the item after it, not the rest. */
  lemma CarCdrOfCons(x: Value, ys: seq<Value>)
    ensures ApplyPrim(Cons, [x, List(ys)]) == Ok(List([x] + ys))
    ensures ApplyPrim(Car, [List([x] + ys)]) == Ok(x)
    ensures ApplyPrim(Cdr, [List([x] + ys)]) == Ok(if ys == [] then Nil else ys[0])
  {
  }

  /** `(cdr (list 1 2 3))` answers 2, where Scheme answers `(2 3)`. */
  lemma CdrIsSecondItem()
    ensures ApplyPrim(Cdr, [List([Num(1), Num(2), Num(3)])]) == Ok(Num(2))
    ensures ApplyPrim(Cdr, [List([Num(1), Num(2), Num(3)])]) != Ok(List([Num(2), Num(3)]))
  {
  }

  /** `null?` holds of the empty list and of the values PHP's `==` finds equal to it: null and false. */
  lemma NullIff(v: Value)
    ensures ApplyPrim(IsNull, [v]) == Ok(Bool(v == List([]) || v == Bool(false) || v == Nil))
  {
  }

  /** Too few arguments for a primitive's PHP closure is an error raised by PHP. */
  lemma PrimTooFewArguments(op: PrimOp, args: seq<Value>)
    requires |args| < Arity(op)
    ensures ApplyPrim(op, args) == Err(HostError)
  {
  }

  /** `append` concatenates, and `len` counts the items of the result. */
  lemma AppendLength(xs: seq<Value>, ys: seq<Value>)
    ensures ApplyPrim(Append, [List(xs), List(ys)]) == Ok(List(xs + ys))
    ensures ApplyPrim(Len, [List(xs + ys)]) == Ok(Int(|xs| + |ys|))
  {
  }
  /**
   * `len` answers a PHP int, so it is `=` to the float literal of the same
   * number but never `eq?` to it: `(eq? (len (list 1)) 1)` is false.
   */
  lemma LenIsNotIdenticalToLiteral(items: seq<Value>)
    ensures ApplyPrim(Len, [List(items)]) == Ok(Int(|items|))
    ensures ApplyPrim(NumEq, [Int(|items|), Num(|items|)]) == Ok(Bool(true))
    ensures ApplyPrim(IsEq, [Int(|items|), Num(|items|)]) == Ok(Bool(false))
    ensures ApplyPrim(IsEq, [Int(|items|), Int(|items|)]) == Ok(Bool(true))
  {
  }

  /** `PHP_INT_MIN / -1` leaves the int range, so PHP answers a float. */
  lemma DivideLeavesIntRange()
    ensures ApplyPrim(Div, [Int(IntMin), Int(-1)]) == Ok(Num(IntMax + 1))
    ensures ApplyPrim(Div, [Int(IntMax), Int(-1)]) == Ok(Int(IntMin + 1))
  {
  }

}
