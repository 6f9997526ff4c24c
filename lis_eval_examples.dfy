/** Whole evaluations of lis.php programs from the global environment `add_globals` builds. */
module LisEvalExamples {
  import opened Basics
  import opened LisValues
  import opened LisEnv
  import opened LisEval
  import LisEvalProps

  /** The value of each item of an application that is not itself a list: a symbol's lookup, or the item. */
  function AtomValues(fs: seq<Frame>, xs: seq<Value>, env: nat): seq<Value> {
    if xs == [] then []
    else [if xs[0].Sym? then Lookup(fs, env, xs[0].name) else xs[0]] + AtomValues(fs, xs[1..], env)
  }

  /** Items that are symbols or constants evaluate without fuel and without touching the frames. */
  lemma {:induction false} EvalArgsAtoms(fuel: nat, fs: seq<Frame>, xs: seq<Value>, env: nat, acc: seq<Value>)
    requires forall i :: 0 <= i < |xs| ==> !xs[i].List?
    ensures EvalArgs(fuel, fs, xs, env, acc) == (fs, Ok(acc + AtomValues(fs, xs, env)))
    decreases |xs|
  {
    if xs != [] {
      var v := if xs[0].Sym? then Lookup(fs, env, xs[0].name) else xs[0];
      assert Eval(fuel, fs, xs[0], env) == (fs, Ok(v));
      assert EvalArgs(fuel, fs, xs, env, acc) == EvalArgs(fuel, fs, xs[1..], env, acc + [v]);
      EvalArgsAtoms(fuel, fs, xs[1..], env, acc + [v]);
      assert AtomValues(fs, xs, env) == [v] + AtomValues(fs, xs[1..], env);
      assert acc + [v] + AtomValues(fs, xs[1..], env) == acc + AtomValues(fs, xs, env);
    } else {
      assert acc + AtomValues(fs, xs, env) == acc;
    }
  }

  /**
   * A call of a primitive, named by a symbol that is not a special form,
   * on symbols and constants: the primitive applied to their values.
   */
  lemma EvalPrimCall(fuel: nat, fs: seq<Frame>, op: string, args: seq<Value>, env: nat)
    requires fuel >= 1 && op !in ["quote", "if", "set!", "define", "lambda", "begin"]
    requires Lookup(fs, env, op).Prim?
    requires forall i :: 0 <= i < |args| ==> !args[i].List?
    ensures Eval(fuel, fs, List([Sym(op)] + args), env) ==
      (fs, ApplyPrim(Lookup(fs, env, op).op, AtomValues(fs, args, env)))
  {
    var items := [Sym(op)] + args;
    EvalArgsAtoms(fuel - 1, fs, items, env, []);
    assert items[1..] == args;
    var vs := AtomValues(fs, items, env);
    assert vs == [] + vs == [Lookup(fs, env, op)] + AtomValues(fs, args, env);
    assert !IsForm(items, "quote") && !IsForm(items, "if") && !IsForm(items, "set!");
    assert !IsForm(items, "define") && !IsForm(items, "lambda") && !IsForm(items, "begin");
    assert EvalForm(fuel, fs, items, env) == Apply(fuel - 1, fs, vs[0], vs[1..]);
  }

  /** A lone root frame binding the names of m, after `(define x n)`. */
  function WithX(m: map<string, Value>, n: int): seq<Frame> {
    [Frame(m["x" := Num(n)], None)]
  }

  /** `(+ x 1)` with `x` bound to n and `+` to addition answers n + 1. */
  lemma IncrementX(fuel: nat, m: map<string, Value>, n: int)
    requires fuel >= 1 && "+" in m && m["+"] == Prim(Add)
    ensures Eval(fuel, WithX(m, n), List([Sym("+"), Sym("x"), Num(1)]), GlobalEnv) == (WithX(m, n), Ok(Num(n + 1)))
  {
    var fs := WithX(m, n);
    assert Lookup(fs, GlobalEnv, "x") == Num(n);
    assert Lookup(fs, GlobalEnv, "+") == Prim(Add);
    assert [Sym("+"), Sym("x"), Num(1)] == [Sym("+")] + [Sym("x"), Num(1)];
    EvalPrimCall(fuel, fs, "+", [Sym("x"), Num(1)], GlobalEnv);
    assert [Sym("x"), Num(1)][1..] == [Num(1)] && [Num(1)][1..] == [];
    assert AtomValues(fs, [Num(1)], GlobalEnv) == [Num(1)];
    assert AtomValues(fs, [Sym("x"), Num(1)], GlobalEnv) == [Num(n), Num(1)];
  }

  /** `(define x 1)` in a lone frame binds `x` to 1 there. */
  lemma DefineX(fuel: nat, m: map<string, Value>)
    requires fuel >= 2
    ensures Eval(fuel, [Frame(m, None)], List([Sym("define"), Sym("x"), Num(1)]), GlobalEnv) == (WithX(m, 1), Ok(Nil))
  {
    var fs0 := [Frame(m, None)];
    var d := List([Sym("define"), Sym("x"), Num(1)]);
    assert ItemAt(d.items, 2) == Num(1) && NameOf(ItemAt(d.items, 1)) == Ok("x");
    assert Eval(fuel - 1, fs0, Num(1), GlobalEnv) == (fs0, Ok(Num(1)));
    assert !IsForm(d.items, "quote") && !IsForm(d.items, "if") && !IsForm(d.items, "set!") && IsForm(d.items, "define");
    assert SetAtF(fs0, GlobalEnv, "x", Num(1)) == WithX(m, 1);
    assert Eval(fuel, fs0, d, GlobalEnv) == EvalForm(fuel, fs0, d.items, GlobalEnv);
  }

  /** `(set! x (+ x 1))` with `x` bound to 1 rebinds it to 2. */
  lemma SetX(fuel: nat, m: map<string, Value>)
    requires fuel >= 2 && "+" in m && m["+"] == Prim(Add)
    ensures Eval(fuel, WithX(m, 1), List([Sym("set!"), Sym("x"), List([Sym("+"), Sym("x"), Num(1)])]), GlobalEnv) == (WithX(m, 2), Ok(Nil))
  {
    var p := List([Sym("+"), Sym("x"), Num(1)]);
    IncrementX(fuel - 1, m, 1);
    LisEvalProps.EvalSetWritesFound(fuel, WithX(m, 1), "x", p, GlobalEnv);
    assert Find(WithX(m, 1), GlobalEnv, "x") == GlobalEnv;
    assert m["x" := Num(1)]["x" := Num(2)] == m["x" := Num(2)];
    assert SetAtF(WithX(m, 1), GlobalEnv, "x", Num(2)) == WithX(m, 2);
  }

  /** `(begin (define x 1) (set! x (+ x 1)) (+ x 1))` in a lone frame binding `+` to addition. */
  lemma BeginDefineSet(fuel: nat, m: map<string, Value>)
    requires fuel >= 3 && "+" in m && m["+"] == Prim(Add)
    ensures Eval(fuel, [Frame(m, None)],
      List([Sym("begin"),
        List([Sym("define"), Sym("x"), Num(1)]),
        List([Sym("set!"), Sym("x"), List([Sym("+"), Sym("x"), Num(1)])]),
        List([Sym("+"), Sym("x"), Num(1)])]), GlobalEnv) == (WithX(m, 2), Ok(Num(3)))
  {
    var d := List([Sym("define"), Sym("x"), Num(1)]);
    var p := List([Sym("+"), Sym("x"), Num(1)]);
    var s := List([Sym("set!"), Sym("x"), p]);
    DefineSetBody(fuel - 1, m);
    EvalBegin(fuel, [Frame(m, None)], [d, s, p], GlobalEnv);
    assert [Sym("begin")] + [d, s, p] == [Sym("begin"), d, s, p];
  }

  /** The body of that `begin`, one expression at a time. */
  lemma DefineSetBody(fuel: nat, m: map<string, Value>)
    requires fuel >= 2 && "+" in m && m["+"] == Prim(Add)
    ensures EvalSeq(fuel, [Frame(m, None)],
      [List([Sym("define"), Sym("x"), Num(1)]),
       List([Sym("set!"), Sym("x"), List([Sym("+"), Sym("x"), Num(1)])]),
       List([Sym("+"), Sym("x"), Num(1)])], GlobalEnv, Nil) == (WithX(m, 2), Ok(Num(3)))
  {
    var fs0 := [Frame(m, None)];
    var d := List([Sym("define"), Sym("x"), Num(1)]);
    var p := List([Sym("+"), Sym("x"), Num(1)]);
    var s := List([Sym("set!"), Sym("x"), p]);
    DefineX(fuel, m);
    SetX(fuel, m);
    IncrementX(fuel, m, 2);
    EvalSeqStep(fuel, WithX(m, 2), p, [], GlobalEnv, Nil);
    assert EvalSeq(fuel, WithX(m, 2), [], GlobalEnv, Num(3)) == (WithX(m, 2), Ok(Num(3)));
    assert [p] + [] == [p];
    EvalSeqStep(fuel, WithX(m, 1), s, [p], GlobalEnv, Nil);
    assert [s] + [p] == [s, p];
    EvalSeqStep(fuel, fs0, d, [s, p], GlobalEnv, Nil);
    assert [d] + [s, p] == [d, s, p];
  }

  /** `begin` evaluates its body in order, starting from null. */
  lemma EvalBegin(fuel: nat, fs: seq<Frame>, body: seq<Value>, env: nat)
    requires fuel >= 1
    ensures Eval(fuel, fs, List([Sym("begin")] + body), env) == EvalSeq(fuel - 1, fs, body, env, Nil)
  {
    var items := [Sym("begin")] + body;
    assert items[0] == Sym("begin") && items[1..] == body;
    assert Eval(fuel, fs, List(items), env) == EvalForm(fuel, fs, items, env);
  }

  /** A body whose first expression answers a value goes on with the rest. */
  lemma EvalSeqStep(fuel: nat, fs: seq<Frame>, x: Value, rest: seq<Value>, env: nat, last: Value)
    requires Eval(fuel, fs, x, env).1.Ok?
    ensures EvalSeq(fuel, fs, [x] + rest, env, last) == EvalSeq(fuel, Eval(fuel, fs, x, env).0, rest, env, Eval(fuel, fs, x, env).1.value)
  {
    assert ([x] + rest)[0] == x && ([x] + rest)[1..] == rest;
  }

  /**
   * From the global environment, `(begin (define x 1) (set! x (+ x 1)) (+ x 1))`
   * answers 3 and leaves `x` bound to 2 in the global frame.
   */
  lemma BeginDefineSetExample(fuel: nat)
    requires fuel >= 3
    ensures var (fs, r) := Eval(fuel, InitialFrames(),
      List([Sym("begin"),
        List([Sym("define"), Sym("x"), Num(1)]),
        List([Sym("set!"), Sym("x"), List([Sym("+"), Sym("x"), Num(1)])]),
        List([Sym("+"), Sym("x"), Num(1)])]), GlobalEnv);
      r == Ok(Num(3)) && fs == SetAtF(InitialFrames(), GlobalEnv, "x", Num(2))
  {
    assert InitialFrames() == [Frame(GlobalTable(), None)] by {
      assert GlobalTable() + map[] == GlobalTable();
    }
    assert "+" in GlobalTable() && GlobalTable()["+"] == Prim(Add);
    BeginDefineSet(fuel, GlobalTable());
  }

  /**
   * `((lambda (x) (+ x x)) 5)` in a lone frame binding `+` to addition: the
   * call appends a frame binding `x` to 5 over the root and answers 10.
   */
  lemma LambdaDouble(fuel: nat, m: map<string, Value>)
    requires fuel >= 2 && "+" in m && m["+"] == Prim(Add)
    ensures var form := [Sym("lambda"), List([Sym("x")]), List([Sym("+"), Sym("x"), Sym("x")])];
      Eval(fuel, [Frame(m, None)], List([List(form), Num(5)]), GlobalEnv) ==
        ([Frame(m, None), Frame(map["x" := Num(5)], Some(GlobalEnv))], Ok(Num(10)))
  {
    var fs0 := [Frame(m, None)];
    var body := List([Sym("+"), Sym("x"), Sym("x")]);
    var form := [Sym("lambda"), List([Sym("x")]), body];
    var items := [List(form), Num(5)];
    var f := Lambda(form, GlobalEnv);
    var fs1 := fs0 + [Frame(map["x" := Num(5)], Some(GlobalEnv))];
    DoubleArgs(fuel - 1, fs0, body);
    DoubleCall(fuel - 1, fs0, body);
    DoubleBody(fuel - 1, m, fs1);
    assert Eval(fuel, fs0, List(items), GlobalEnv) == Apply(fuel - 1, fs0, f, [Num(5)]) by {
      assert LisEvalProps.IsApplication(items);
      LisEvalProps.EvalApplication(fuel, fs0, items, GlobalEnv, fs0, [f, Num(5)]);
      assert [f, Num(5)][1..] == [Num(5)];
    }
  }

  /** The operator `(lambda (x) body)` and the operand 5 evaluate to a closure over the root and to 5. */
  lemma DoubleArgs(fuel: nat, fs0: seq<Frame>, body: Value)
    requires fuel >= 1 && |fs0| == 1
    ensures var form := [Sym("lambda"), List([Sym("x")]), body];
      EvalArgs(fuel, fs0, [List(form), Num(5)], GlobalEnv, []) == (fs0, Ok([Lambda(form, GlobalEnv), Num(5)]))
  {
    var form := [Sym("lambda"), List([Sym("x")]), body];
    var items := [List(form), Num(5)];
    var f := Lambda(form, GlobalEnv);
    assert Eval(fuel, fs0, List(form), GlobalEnv) == (fs0, Ok(f)) by {
      LisEvalProps.EvalLambdaCloses(fuel, fs0, List([Sym("x")]), body, GlobalEnv);
    }
    assert items[0] == List(form) && items[1..] == [Num(5)] && [] + [f] == [f];
    assert EvalArgs(fuel, fs0, items, GlobalEnv, []) == EvalArgs(fuel, fs0, [Num(5)], GlobalEnv, [f]);
    EvalArgsAtoms(fuel, fs0, [Num(5)], GlobalEnv, [f]);
    assert [f] + AtomValues(fs0, [Num(5)], GlobalEnv) == [f, Num(5)];
  }

  /** Calling the closure on 5 evaluates its body in a new frame binding `x` to 5 over the root. */
  lemma DoubleCall(fuel: nat, fs0: seq<Frame>, body: Value)
    requires |fs0| == 1
    ensures Apply(fuel, fs0, Lambda([Sym("lambda"), List([Sym("x")]), body], GlobalEnv), [Num(5)]) ==
      Eval(fuel, fs0 + [Frame(map["x" := Num(5)], Some(GlobalEnv))], body, 1)
  {
    LisEvalProps.ApplyLambdaBinds(fuel, fs0, ["x"], body, GlobalEnv, [Num(5)]);
    assert seq(1, i requires 0 <= i < 1 => Sym(["x"][i])) == [Sym("x")];
    assert Combine(["x"], [Num(5)]) == map["x" := Num(5)];
  }

  /** `(+ x x)` with `x` bound to 5 over a root binding `+` to addition answers 10. */
  lemma DoubleBody(fuel: nat, m: map<string, Value>, fs1: seq<Frame>)
    requires fuel >= 1 && "+" in m && m["+"] == Prim(Add)
    requires fs1 == [Frame(m, None), Frame(map["x" := Num(5)], Some(GlobalEnv))]
    ensures Eval(fuel, fs1, List([Sym("+"), Sym("x"), Sym("x")]), 1) == (fs1, Ok(Num(10)))
  {
    var body := List([Sym("+"), Sym("x"), Sym("x")]);
    assert Lookup(fs1, 1, "x") == Num(5);
    assert Find(fs1, 1, "+") == 0;
    assert Lookup(fs1, 1, "+") == Prim(Add);
    assert body.items == [Sym("+")] + [Sym("x"), Sym("x")];
    EvalPrimCall(fuel, fs1, "+", [Sym("x"), Sym("x")], 1);
    assert [Sym("x"), Sym("x")][1..] == [Sym("x")] && [Sym("x")][1..] == [];
    assert AtomValues(fs1, [Sym("x")], 1) == [Num(5)];
    assert AtomValues(fs1, [Sym("x"), Sym("x")], 1) == [Num(5), Num(5)];
  }

  /** From the global environment, `((lambda (x) (+ x x)) 5)` answers 10. */
  lemma LambdaDoubleExample(fuel: nat)
    requires fuel >= 2
    ensures var form := [Sym("lambda"), List([Sym("x")]), List([Sym("+"), Sym("x"), Sym("x")])];
      Eval(fuel, InitialFrames(), List([List(form), Num(5)]), GlobalEnv).1 == Ok(Num(10))
  {
    assert InitialFrames() == [Frame(GlobalTable(), None)] by {
      assert GlobalTable() + map[] == GlobalTable();
    }
    assert "+" in GlobalTable() && GlobalTable()["+"] == Prim(Add);
    LambdaDouble(fuel, GlobalTable());
  }
}
