/**
 * The nested `call/cc` examples of the source's tests, derived from three
 * small evaluation rules: a `call/cc` of a one-parameter lambda, a
 * primitive applied to a number and an expression, and an escape closure
 * applied to a number.
 */
module LispEvalExamples {
  import opened Basics
  import opened LispValues
  import opened LispEnv
  import LispEnvProps
  import opened LispEval

  /** `(call/cc (lambda (k) body))`. */
  function CallccForm(k: string, body: Value): Value {
    List([Sym("call/cc"), List([Sym("lambda"), List([Sym(k)]), body])])
  }

  /** One step of the `array_map` over an application: the head first, then the rest unless it failed. */
  lemma EvalArgsStep(fuel: nat, h: Heap, x: Value, xs: seq<Value>, env: nat, acc: seq<Value>)
    ensures EvalArgs(fuel, h, [x] + xs, env, acc) ==
      var (h1, o) := Eval(fuel, h, x, env);
      if o.Normal? then EvalArgs(fuel, h1, xs, env, acc + [o.v]) else (h1, o)
  {
    assert ([x] + xs)[1..] == xs;
  }

  /** The heads `_eval` tests for before it treats a list as an application. */
  const SpecialForms: set<string> := {"quote", "if", "set!", "define", "lambda", "begin"}

  /** An application whose operator is not a user procedure calls it on the other items' values. */
  lemma EvalApplication(fuel: nat, h: Heap, items: seq<Value>, env: nat, h1: Heap, proc: Value, args: seq<Value>)
    requires fuel >= 1 && items != [] && items[0].Sym? && items[0].name !in SpecialForms
    requires EvalArgs(fuel - 1, h, items, env, []) == (h1, Normal(List([proc] + args)))
    requires !proc.Closure?
    ensures Eval(fuel, h, List(items), env) == Apply(fuel - 1, h1, proc, args)
  {
    assert Eval(fuel, h, List(items), env) == EvalForm(fuel, h, items, env);
    assert At(items, 0) == items[0];
    assert ([proc] + args)[0] == proc && ([proc] + args)[1..] == args;
  }

  /** A procedure of one parameter runs its body in a new frame binding that parameter. */
  lemma ApplyOneParameter(fuel: nat, h: Heap, k: string, body: Value, env: nat, v: Value)
    requires fuel >= 1 && env < |h.frames| && !Holds(h.frames[env], k)
    ensures Apply(fuel, h, Closure(List([Sym(k)]), body, env), [v]) ==
            Eval(fuel - 1, Heap(h.frames + [Frame(map[k := v], Some(env))], h.balls), body, |h.frames|)
  {
    var fs0 := h.frames + [Frame(map[], Some(env))];
    var fs1 := h.frames + [Frame(map[k := v], Some(env))];
    var e := |h.frames|;
    assert Outer(fs0, e) == Some(env) && !Holds(fs0[env], k);
    assert SetAtF(fs0, e, k, v) == fs1;
    LispEnvProps.NewFrameOne(h.frames, k, v, Some(env));
  }

  /**
   * Evaluating `(call/cc (lambda (k) body))` runs body in a new frame that
   * binds k to a fresh escape closure, and turns that closure's own ball
   * into an ordinary value.
   */
  lemma EvalCallccForm(fuel: nat, h: Heap, k: string, body: Value, env: nat)
    requires fuel >= 5 && env < |h.frames|
    requires Lookup(h.frames, env, "call/cc") == Normal(Prim(CallCC))
    requires !Holds(h.frames[env], k)
    ensures var t := h.balls;
      var h' := Heap(h.frames + [Frame(map[k := Escaper(t)], Some(env))], t + 1);
      var (h2, o) := Eval(fuel - 4, h', body, |h.frames|);
      Eval(fuel, h, CallccForm(k, body), env) == (h2, if o.Escape? && o.ball == t then Normal(o.v) else o)
  {
    var lam := List([Sym("lambda"), List([Sym(k)]), body]);
    var clo := Closure(List([Sym(k)]), body, env);
    var items := [Sym("call/cc"), lam];
    var f := fuel - 1;
    var done := List([Prim(CallCC), clo]);
    assert EvalArgs(f, h, [], env, [Prim(CallCC), clo]) == (h, Normal(done));
    assert Eval(f, h, lam, env) == (h, Normal(clo));
    EvalArgsStep(f, h, lam, [], env, [Prim(CallCC)]);
    assert [lam] + [] == [lam] && [Prim(CallCC)] + [clo] == [Prim(CallCC), clo];
    assert EvalArgs(f, h, [lam], env, [Prim(CallCC)]) == (h, Normal(done));
    assert Eval(f, h, Sym("call/cc"), env) == (h, Normal(Prim(CallCC)));
    EvalArgsStep(f, h, Sym("call/cc"), [lam], env, []);
    assert [Sym("call/cc")] + [lam] == items && [] + [Prim(CallCC)] == [Prim(CallCC)];
    assert EvalArgs(f, h, items, env, []) == (h, Normal(done));
    assert done == List([Prim(CallCC)] + [clo]);
    EvalApplication(fuel, h, items, env, h, Prim(CallCC), [clo]);
    assert Apply(fuel - 1, h, Prim(CallCC), [clo]) == Callcc(fuel - 2, h, [clo]);
    CallccOneParameter(fuel - 2, h, k, body, env);
  }

  /** `callcc` on a procedure of one parameter: its body runs with that parameter bound to a fresh escape closure. */
  lemma CallccOneParameter(fuel: nat, h: Heap, k: string, body: Value, env: nat)
    requires fuel >= 2 && env < |h.frames| && !Holds(h.frames[env], k)
    ensures var t := h.balls;
      var h' := Heap(h.frames + [Frame(map[k := Escaper(t)], Some(env))], t + 1);
      var (h2, o) := Eval(fuel - 2, h', body, |h.frames|);
      Callcc(fuel, h, [Closure(List([Sym(k)]), body, env)]) == (h2, if o.Escape? && o.ball == t then Normal(o.v) else o)
  {
    var t := h.balls;
    ApplyOneParameter(fuel - 1, h.(balls := t + 1), k, body, env, Escaper(t));
  }

  /**
   * `(op n e)` with op naming a primitive other than `call/cc` and n a number:
   * e is evaluated, then the primitive is applied to n and e's value.
   */
  lemma EvalPrimCall(fuel: nat, h: Heap, op: string, p: PrimOp, n: int, e: Value, env: nat)
    requires fuel >= 3 && !p.CallCC?
    requires op !in SpecialForms
    requires Lookup(h.frames, env, op) == Normal(Prim(p))
    ensures var (h1, o) := Eval(fuel - 1, h, e, env);
      Eval(fuel, h, List([Sym(op), Num(n), e]), env) ==
        (h1, if o.Normal? then ApplyPrim(p, [Num(n), o.v]) else o)
  {
    var items := [Sym(op), Num(n), e];
    var (h1, o) := Eval(fuel - 1, h, e, env);
    ArgsOfPrimCall(fuel - 1, h, op, p, n, e, env);
    if o.Normal? {
      EvalApplication(fuel, h, items, env, h1, Prim(p), [Num(n), o.v]);
    } else {
      assert Eval(fuel, h, List(items), env) == EvalForm(fuel, h, items, env);
    }
  }

  /** The items of `(op n e)` evaluate to the primitive, n, and e's value, in that order. */
  lemma ArgsOfPrimCall(f: nat, h: Heap, op: string, p: PrimOp, n: int, e: Value, env: nat)
    requires f >= 1 && Lookup(h.frames, env, op) == Normal(Prim(p))
    ensures var (h1, o) := Eval(f, h, e, env);
      EvalArgs(f, h, [Sym(op), Num(n), e], env, []) ==
        (h1, if o.Normal? then Normal(List([Prim(p)] + [Num(n), o.v])) else o)
  {
    var items := [Sym(op), Num(n), e];
    var (h1, o) := Eval(f, h, e, env);
    EvalArgsStep(f, h, e, [], env, [Prim(p), Num(n)]);
    assert [e] + [] == [e];
    if o.Normal? {
      var done := List([Prim(p), Num(n), o.v]);
      assert EvalArgs(f, h1, [], env, [Prim(p), Num(n), o.v]) == (h1, Normal(done));
      assert [Prim(p), Num(n)] + [o.v] == [Prim(p), Num(n), o.v];
      assert EvalArgs(f, h, [e], env, [Prim(p), Num(n)]) == (h1, Normal(done));
      assert done == List([Prim(p)] + [Num(n), o.v]);
    } else {
      assert EvalArgs(f, h, [e], env, [Prim(p), Num(n)]) == (h1, o);
    }
    assert Eval(f, h, Num(n), env) == (h, Normal(Num(n)));
    EvalArgsStep(f, h, Num(n), [e], env, [Prim(p)]);
    assert [Num(n)] + [e] == [Num(n), e] && [Prim(p)] + [Num(n)] == [Prim(p), Num(n)];
    assert Eval(f, h, Sym(op), env) == (h, Normal(Prim(p)));
    EvalArgsStep(f, h, Sym(op), [Num(n), e], env, []);
    assert [Sym(op)] + [Num(n), e] == items && [] + [Prim(p)] == [Prim(p)];
  }

  /** `(k n)` with k bound to an escape closure throws that closure's ball with n. */
  lemma EvalEscape(fuel: nat, h: Heap, k: string, t: nat, n: int, env: nat)
    requires fuel >= 3
    requires k !in SpecialForms
    requires Lookup(h.frames, env, k) == Normal(Escaper(t))
    ensures Eval(fuel, h, List([Sym(k), Num(n)]), env) == (h, Escape(t, Num(n)))
  {
    var items := [Sym(k), Num(n)];
    var f := fuel - 1;
    var done := List([Escaper(t), Num(n)]);
    assert EvalArgs(f, h, [], env, [Escaper(t), Num(n)]) == (h, Normal(done));
    assert Eval(f, h, Num(n), env) == (h, Normal(Num(n)));
    EvalArgsStep(f, h, Num(n), [], env, [Escaper(t)]);
    assert [Num(n)] + [] == [Num(n)] && [Escaper(t)] + [Num(n)] == [Escaper(t), Num(n)];
    assert EvalArgs(f, h, [Num(n)], env, [Escaper(t)]) == (h, Normal(done));
    assert Eval(f, h, Sym(k), env) == (h, Normal(Escaper(t)));
    EvalArgsStep(f, h, Sym(k), [Num(n)], env, []);
    assert [Sym(k)] + [Num(n)] == items && [] + [Escaper(t)] == [Escaper(t)];
    assert EvalArgs(f, h, items, env, []) == (h, Normal(done));
    assert done == List([Escaper(t)] + [Num(n)]);
    EvalApplication(fuel, h, items, env, h, Escaper(t), [Num(n)]);
  }

  /** The frames of the examples: the global frame and one frame per `call/cc` lambda. */
  function F0(): Frame { Frame(PrimitiveTable(), None) }
  function F1(): Frame { Frame(map["throw" := Escaper(0)], Some(0)) }
  function F2(): Frame { Frame(map["escape" := Escaper(1)], Some(1)) }

  lemma ExampleLookups()
    ensures Lookup([F0()], 0, "call/cc") == Normal(Prim(CallCC))
    ensures Lookup([F0(), F1()], 1, "call/cc") == Normal(Prim(CallCC))
    ensures Lookup([F0(), F1()], 1, "+") == Normal(Prim(Add))
    ensures Lookup([F0(), F1()], 1, "*") == Normal(Prim(Mul))
    ensures Lookup([F0(), F1(), F2()], 2, "*") == Normal(Prim(Mul))
    ensures Lookup([F0(), F1(), F2()], 2, "escape") == Normal(Escaper(1))
    ensures Lookup([F0(), F1(), F2()], 2, "throw") == Normal(Escaper(0))
  {
    RootEntries();
    OneLevelLookups();
    TwoLevelLookups();
  }

  lemma RootEntries()
    ensures Lookup([F0()], 0, "call/cc") == Normal(Prim(CallCC))
    ensures "call/cc" in F0().vals && F0().vals["call/cc"] == Prim(CallCC)
    ensures "+" in F0().vals && F0().vals["+"] == Prim(Add)
    ensures "*" in F0().vals && F0().vals["*"] == Prim(Mul)
  {
  }

  lemma OneLevelLookups()
    ensures Lookup([F0(), F1()], 1, "call/cc") == Normal(Prim(CallCC))
    ensures Lookup([F0(), F1()], 1, "+") == Normal(Prim(Add))
    ensures Lookup([F0(), F1()], 1, "*") == Normal(Prim(Mul))
  {
    RootEntries();
    assert Outer([F0(), F1()], 1) == Some(0);
  }

  lemma TwoLevelLookups()
    ensures Lookup([F0(), F1(), F2()], 2, "*") == Normal(Prim(Mul))
    ensures Lookup([F0(), F1(), F2()], 2, "escape") == Normal(Escaper(1))
    ensures Lookup([F0(), F1(), F2()], 2, "throw") == Normal(Escaper(0))
  {
    RootEntries();
    var fs := [F0(), F1(), F2()];
    assert Outer(fs, 2) == Some(1) && Outer(fs, 1) == Some(0);
  }

  /** `(* 100 (k 3))`, the innermost body of the examples. */
  function Inner(k: string): Value {
    List([Sym("*"), Num(100), List([Sym(k), Num(3)])])
  }

  /** `(+ 5 (* 10 c))`. */
  function Outer5(c: Value): Value {
    List([Sym("+"), Num(5), List([Sym("*"), Num(10), c])])
  }

  /**
   * The inner `(call/cc (lambda (escape) (* 100 (k 3))))`, evaluated in the
   * frame of the outer lambda: throwing to `escape` answers 3 there;
   * throwing to `throw` passes the outer ball through.
   */
  lemma InnerExample(fuel: nat, k: string)
    requires fuel >= 8 && (k == "escape" || k == "throw")
    ensures Eval(fuel, Heap([F0(), F1()], 1), CallccForm("escape", Inner(k)), 1) ==
      (Heap([F0(), F1(), F2()], 2), if k == "escape" then Normal(Num(3)) else Escape(0, Num(3)))
  {
    ExampleLookups();
    var h1 := Heap([F0(), F1()], 1);
    var h2 := Heap([F0(), F1(), F2()], 2);
    assert [F0(), F1()] + [F2()] == h2.frames;
    var thrown := if k == "escape" then 1 else 0;
    EvalEscape(fuel - 5, h2, k, thrown, 3, 2);
    EvalPrimCall(fuel - 4, h2, "*", Mul, 100, List([Sym(k), Num(3)]), 2);
    assert Eval(fuel - 4, h2, Inner(k), 2) == (h2, Escape(thrown, Num(3)));
    EvalCallccForm(fuel, h1, "escape", Inner(k), 1);
  }

  /** `(+ 5 (* 10 c))` in any heap where `+` and `*` are the primitives: 5 + 10c, or c's escape. */
  lemma EvalOuter5(fuel: nat, h: Heap, c: Value, env: nat, h': Heap, o: Outcome)
    requires fuel >= 4
    requires Lookup(h.frames, env, "+") == Normal(Prim(Add))
    requires Lookup(h.frames, env, "*") == Normal(Prim(Mul))
    requires Eval(fuel - 2, h, c, env) == (h', o)
    requires o.Escape? || (o.Normal? && o.v.Num?)
    ensures Eval(fuel, h, Outer5(c), env) == (h', if o.Normal? then Normal(Num(5 + 10 * o.v.n)) else o)
  {
    var prod := List([Sym("*"), Num(10), c]);
    var middle := if o.Normal? then Normal(Num(10 * o.v.n)) else o;
    assert Eval(fuel - 1, h, prod, env) == (h', middle) by {
      EvalPrimCall(fuel - 1, h, "*", Mul, 10, c, env);
    }
    EvalPrimCall(fuel, h, "+", Add, 5, prod, env);
  }

  /** The body of the outer lambda, `(+ 5 (* 10 <inner call/cc>))`. */
  lemma OuterBodyExample(fuel: nat, k: string)
    requires fuel >= 10 && (k == "escape" || k == "throw")
    ensures Eval(fuel, Heap([F0(), F1()], 1), Outer5(CallccForm("escape", Inner(k))), 1) ==
      (Heap([F0(), F1(), F2()], 2), if k == "escape" then Normal(Num(35)) else Escape(0, Num(3)))
  {
    OneLevelLookups();
    var o := if k == "escape" then Normal(Num(3)) else Escape(0, Num(3));
    InnerExample(fuel - 2, k);
    EvalOuter5(fuel, Heap([F0(), F1()], 1), CallccForm("escape", Inner(k)), 1, Heap([F0(), F1(), F2()], 2), o);
  }

  /**
   * The tests `(call/cc (lambda (throw) (+ 5 (* 10 (call/cc (lambda (escape)
   * (* 100 (escape 3))))))))`, which answers 35, and the same with
   * `(throw 3)` inside, which answers 3.
   */
  lemma NestedCallcc(fuel: nat, k: string, result: int)
    requires fuel >= 14
    requires (k == "escape" && result == 35) || (k == "throw" && result == 3)
    ensures Eval(fuel, InitialHeap(), CallccForm("throw", Outer5(CallccForm("escape", Inner(k)))), GlobalEnv).1
            == Normal(Num(result))
  {
    var h0 := InitialHeap();
    var body := Outer5(CallccForm("escape", Inner(k)));
    var h1 := Heap([F0(), F1()], 1);
    assert h0.frames == [F0()] && h0.balls == 0;
    assert h0.frames + [F1()] == h1.frames;
    assert !Holds(h0.frames[0], "throw") by {
      assert "throw" !in PrimitiveTable();
    }
    assert Lookup(h0.frames, 0, "call/cc") == Normal(Prim(CallCC)) by {
      ExampleLookups();
    }
    var o := if k == "escape" then Normal(Num(35)) else Escape(0, Num(3));
    assert Eval(fuel - 4, h1, body, 1) == (Heap([F0(), F1(), F2()], 2), o) by {
      OuterBodyExample(fuel - 4, k);
    }
    EvalCallccForm(fuel, h0, "throw", body, 0);
  }
}
