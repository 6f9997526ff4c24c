/** What `expand` promises: which forms it rejects, and how it rewrites the others. */
module LispExpandProps {
  import opened Basics
  import opened LispValues
  import opened LispEnv
  import opened LispEval
  import opened LispExpand

  /**
   * The malformed forms of the source's tests are SyntaxErrors, raised
   * before anything is expanded or evaluated: the state is unchanged.
   */
  lemma ExpandRejectsMalformed(fuel: nat, s: State, top: bool)
    requires fuel >= 2
    ensures Expand(fuel, s, List([]), top) == (s, Fail(SyntaxError))
    ensures Expand(fuel, s, List([Sym("quote"), Num(1), Num(2)]), top) == (s, Fail(SyntaxError))
    ensures Expand(fuel, s, List([Sym("if"), Num(1), Num(2), Num(3), Num(4)]), top) == (s, Fail(SyntaxError))
    ensures Expand(fuel, s, List([Sym("set!"), Sym("x")]), top) == (s, Fail(SyntaxError))
    ensures Expand(fuel, s, List([Sym("define"), Num(3), Num(4)]), top) == (s, Fail(SyntaxError))
    ensures Expand(fuel, s, List([Sym("lambda"), Num(3), Num(3)]), top) == (s, Fail(SyntaxError))
    ensures Expand(fuel, s, List([Sym("lambda"), List([Sym("x")])]), top) == (s, Fail(SyntaxError))
  {
    assert !IsPair(Num(3));
  }

  /** An `if` with anything but two or three operands is a SyntaxError. */
  lemma ExpandIfArity(fuel: nat, s: State, args: seq<Value>, top: bool)
    requires fuel >= 1 && |args| != 2 && |args| != 3
    ensures Expand(fuel, s, List([Sym("if")] + args), top) == (s, Fail(SyntaxError))
  {
  }

  /** A two-operand `if` expands exactly as the same `if` with `None` as its alternative. */
  lemma ExpandIfGainsNone(fuel: nat, s: State, test: Value, conseq: Value, top: bool)
    ensures Expand(fuel, s, List([Sym("if"), test, conseq]), top) ==
            Expand(fuel, s, List([Sym("if"), test, conseq, NoneValue]), top)
  {
    assert [Sym("if"), test, conseq] + [NoneValue] == [Sym("if"), test, conseq, NoneValue];
  }

  /** The operands of an `if` are never at top level, whatever the `if` itself is. */
  lemma ExpandIfNotTopLevel(fuel: nat, s: State, test: Value, conseq: Value, alt: Value)
    ensures Expand(fuel, s, List([Sym("if"), test, conseq, alt]), true) ==
            Expand(fuel, s, List([Sym("if"), test, conseq, alt]), false)
  {
  }

  /** `define-macro` below top level is a SyntaxError once its expression has expanded. */
  lemma DefineMacroNeedsTopLevel(fuel: nat, s: State, name: string, e: Value)
    requires fuel >= 2 && Expand(fuel - 2, s, e, false).1.Normal?
    ensures Expand(fuel, s, List([Sym("define-macro"), Sym(name), e]), false) ==
            (Expand(fuel - 2, s, e, false).0, Fail(SyntaxError))
  {
  }

  /**
   * At top level `define-macro` evaluates its expanded expression in the
   * global frame and registers the result when it is callable; anything
   * else is a SyntaxError. The form itself expands to `None`.
   */
  lemma DefineMacroRegisters(fuel: nat, s: State, name: string, e: Value)
    requires fuel >= 3
    requires Expand(fuel - 2, s, e, false).1.Normal?
    ensures var (s1, o) := Expand(fuel - 2, s, e, false);
      var (h2, p) := Eval(fuel - 2, s1.h, o.v, GlobalEnv);
      p.Normal? ==>
        Expand(fuel, s, List([Sym("define-macro"), Sym(name), e]), true) ==
          if Callable(p.v) then (State(h2, s1.m[name := UserMacro(p.v)]), Normal(NoneValue))
          else (State(h2, s1.m), Fail(SyntaxError))
  {
  }

  /** The test `(if (= 1 2) (define-macro a 'a) (define-macro a 'b))` is a SyntaxError. */
  lemma DefineMacroInIfFails(fuel: nat, s: State)
    requires fuel >= 6 && "=" !in s.m
    ensures Expand(fuel, s, List([Sym("if"), List([Sym("="), Num(1), Num(2)]),
                                  List([Sym("define-macro"), Sym("a"), List([Sym("quote"), Sym("a")])]),
                                  List([Sym("define-macro"), Sym("a"), List([Sym("quote"), Sym("b")])])]), true).1
            == Fail(SyntaxError)
  {
    var test := List([Sym("="), Num(1), Num(2)]);
    var qa := List([Sym("quote"), Sym("a")]);
    var dm := List([Sym("define-macro"), Sym("a"), qa]);
    var other := List([Sym("define-macro"), Sym("a"), List([Sym("quote"), Sym("b")])]);
    var f := fuel - 1;
    assert Expand(fuel, s, List([Sym("if"), test, dm, other]), true) ==
           ExpandAll(f, s, [Sym("if"), test, dm, other], false, []);
    ExpandAllAtoms(f - 1, s, test.items, false, []);
    assert Expand(f, s, test, false) == (s, Normal(test));
    DefineMacroNeedsTopLevel(f, s, "a", qa);
    ExpandAllStep(f, s, Sym("if"), [test, dm, other], false, []);
    ExpandAllStep(f, s, test, [dm, other], false, [Sym("if")]);
    ExpandAllStep(f, s, dm, [other], false, [Sym("if"), test]);
  }

  /** One step of `array_map(expand, ...)`: the head first, then the rest unless the head failed. */
  lemma ExpandAllStep(fuel: nat, s: State, x: Value, xs: seq<Value>, top: bool, acc: seq<Value>)
    ensures ExpandAll(fuel, s, [x] + xs, top, acc) ==
      var (s1, o) := Expand(fuel, s, x, top);
      if o.Normal? then ExpandAll(fuel, s1, xs, top, acc + [o.v]) else (s1, o)
  {
    assert ([x] + xs)[1..] == xs;
  }

  /** Symbols and numbers expand to themselves, so a list of them expands to itself. */
  lemma {:induction false} ExpandAllAtoms(fuel: nat, s: State, xs: seq<Value>, top: bool, acc: seq<Value>)
    requires fuel >= 1
    requires forall i :: 0 <= i < |xs| ==> xs[i].Sym? || xs[i].Num?
    ensures ExpandAll(fuel, s, xs, top, acc) == (s, Normal(List(acc + xs)))
    decreases |xs|
  {
    if xs != [] {
      assert Expand(fuel, s, xs[0], top) == (s, Normal(xs[0]));
      ExpandAllAtoms(fuel, s, xs[1..], top, acc + [xs[0]]);
      assert acc + [xs[0]] + xs[1..] == acc + xs;
    } else {
      assert acc + xs == acc;
    }
  }

  /**
   * `(define (f a...) body...)` and `(define-macro (f a...) body...)` both
   * expand as `(define f (lambda (a...) body...))`, below top level.
   */
  lemma ExpandDefineFunction(fuel: nat, s: State, keyword: string, f: Value, args: seq<Value>, body: seq<Value>, top: bool)
    requires keyword == "define" || keyword == "define-macro"
    requires fuel >= 2 && body != []
    ensures Expand(fuel, s, List([Sym(keyword), List([f] + args)] + body), top) ==
            Expand(fuel - 2, s, List([Sym("define"), f, List([Sym("lambda"), List(args)] + body)]), false)
  {
    var items := [Sym(keyword), List([f] + args)] + body;
    assert items[2..] == body;
    assert List([f] + args).items[1..] == args;
  }

  /** A lambda with several body forms expands its body as one `begin`. */
  lemma ExpandLambdaWrapsBody(fuel: nat, s: State, vars: Value, body: seq<Value>, top: bool)
    requires fuel >= 1 && |body| >= 2
    requires vars.Sym? || (vars.List? && AllSymbols(vars.items))
    ensures var (s1, o) := Expand(fuel - 1, s, List([Sym("begin")] + body), false);
      Expand(fuel, s, List([Sym("lambda"), vars] + body), top) ==
        (s1, if o.Normal? then Normal(List([Sym("lambda"), vars, o.v])) else o)
  {
    assert ([Sym("lambda"), vars] + body)[2..] == body;
  }

  /** `(begin)` expands to `None`. */
  lemma ExpandEmptyBegin(fuel: nat, s: State, top: bool)
    requires fuel >= 1
    ensures Expand(fuel, s, List([Sym("begin")]), top) == (s, Normal(NoneValue))
  {
  }

  /** A `let` whose binding list holds anything but `(symbol expr)` pairs is a SyntaxError. */
  lemma LetRejectsBadBinding(fuel: nat, s: State, bindings: seq<Value>, body: seq<Value>, top: bool, i: nat)
    requires fuel >= 3 && "let" in s.m && s.m["let"] == LetMacro && body != []
    requires i < |bindings| && !IsBinding(bindings[i])
    ensures Expand(fuel, s, List([Sym("let"), List(bindings)] + body), top) == (s, Fail(SyntaxError))
  {
    var items := [Sym("let"), List(bindings)] + body;
    var args := items[1..];
    assert args[0] == List(bindings) && |args| >= 2;
    assert !AllBindings(args[0].items);
    assert Let(fuel - 1, s, args) == (s, Fail(SyntaxError));
  }

  /**
   * A `let` whose binding position holds a procedure is a SyntaxError: the
   * `foreach` of `all` reaches the procedure's environment object.
   */
  lemma LetRejectsProcedure(fuel: nat, s: State, p: Value, body: seq<Value>, top: bool)
    requires fuel >= 3 && "let" in s.m && s.m["let"] == LetMacro && body != []
    requires p.Closure?
    ensures Expand(fuel, s, List([Sym("let"), p] + body), top) == (s, Fail(SyntaxError))
  {
    var items := [Sym("let"), p] + body;
    assert items[1..][0] == p && |items[1..]| >= 2;
    assert Let(fuel - 1, s, items[1..]) == (s, Fail(SyntaxError));
  }

  /** The test `(let ((a 1) (b 2 3)) (+ a b))` is a SyntaxError. */
  lemma LetExampleFails(fuel: nat, s: State)
    requires fuel >= 3 && "let" in s.m && s.m["let"] == LetMacro
    ensures Expand(fuel, s, List([Sym("let"),
                                  List([List([Sym("a"), Num(1)]), List([Sym("b"), Num(2), Num(3)])]),
                                  List([Sym("+"), Sym("a"), Sym("b")])]), true)
            == (s, Fail(SyntaxError))
  {
    var bindings := [List([Sym("a"), Num(1)]), List([Sym("b"), Num(2), Num(3)])];
    var body := [List([Sym("+"), Sym("a"), Sym("b")])];
    LetRejectsBadBinding(fuel, s, bindings, body, true, 1);
    assert [Sym("let"), List(bindings)] + body == [Sym("let"), List(bindings), body[0]];
  }

  /**
   * A well-formed `let` becomes the application of a lambda over its
   * variables to its values, both expanded, and that application is
   * expanded once more, as any macro's result is.
   */
  lemma LetBuildsApplication(fuel: nat, s: State, bindings: seq<Value>, body: seq<Value>, top: bool)
    requires fuel >= 3 && "let" in s.m && s.m["let"] == LetMacro && body != []
    requires AllBindings(bindings)
    ensures var (s1, o1) := ExpandAll(fuel - 2, s, LetValues(bindings), false, []);
      var (s2, o2) := ExpandAll(fuel - 2, s1, body, false, []);
      o1.Normal? && o2.Normal? ==>
        Expand(fuel, s, List([Sym("let"), List(bindings)] + body), top) ==
          Expand(fuel - 1, s2, List([List([Sym("lambda"), List(LetVars(bindings))] + o2.v.items)] + o1.v.items), top)
  {
    var items := [Sym("let"), List(bindings)] + body;
    var args := items[1..];
    assert args[0] == List(bindings) && |args| >= 2;
    assert args[1..] == body;
    var (s1, o1) := ExpandAll(fuel - 2, s, LetValues(bindings), false, []);
    var (s2, o2) := ExpandAll(fuel - 2, s1, body, false, []);
    if o1.Normal? && o2.Normal? {
      var app := List([List([Sym("lambda"), List(LetVars(bindings))] + o2.v.items)] + o1.v.items);
      assert Let(fuel - 1, s, args) == (s2, Normal(app));
      assert ApplyMacro(fuel - 1, s, LetMacro, args) == (s2, Normal(app));
    }
  }

  /**
   * A top-level `(define-macro name (lambda vars body))`, the form of the `and` bootstrap,
   * registers, under name, the procedure over vars whose body is the
   * expanded body, closed over the global frame; the frames do not change.
   */
  lemma DefineMacroLambdaRegisters(fuel: nat, s: State, name: string, vars: Value, body: Value)
    requires fuel >= 4
    requires vars.Sym? || (vars.List? && AllSymbols(vars.items))
    ensures var (s1, o) := Expand(fuel - 3, s, body, false);
      o.Normal? ==>
        Expand(fuel, s, List([Sym("define-macro"), Sym(name), List([Sym("lambda"), vars, body])]), true) ==
          (State(s1.h, s1.m[name := UserMacro(Closure(vars, o.v, GlobalEnv))]), Normal(NoneValue))
  {
    var lam := List([Sym("lambda"), vars, body]);
    var (s1, o) := Expand(fuel - 3, s, body, false);
    if o.Normal? {
      var e := List([Sym("lambda"), vars, o.v]);
      assert Expand(fuel - 2, s, lam, false) == (s1, Normal(e));
      assert Eval(fuel - 2, s1.h, e, GlobalEnv) == (s1.h, Normal(Closure(vars, o.v, GlobalEnv)));
      DefineMacroRegisters(fuel, s, name, lam);
    }
  }
}
