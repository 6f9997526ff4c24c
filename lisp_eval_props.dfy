/** What `_eval`, `callcc` and the primitives promise. */
module LispEvalProps {
  import opened Basics
  import opened LispValues
  import opened LispEnv
  import opened LispEval
  import LispEnvProps

  /** `quote` answers its operand as it is, without evaluating it. */
  lemma EvalQuoteUnevaluated(fuel: nat, h: Heap, e: Value, env: nat)
    requires fuel >= 1
    ensures Eval(fuel, h, List([Sym("quote"), e]), env) == (h, Normal(e))
  {
  }

  /**
   * `if` evaluates the test, then only the branch the test selects: the
   * other branch never affects the outcome or the state.
   */
  lemma EvalIfChoosesBranch(fuel: nat, h: Heap, test: Value, conseq: Value, alt: Value, other: Value, env: nat)
    requires fuel >= 1
    ensures var (h1, t) := Eval(fuel - 1, h, test, env);
      t.Normal? ==>
        Eval(fuel, h, List([Sym("if"), test, conseq, alt]), env) ==
        Eval(fuel - 1, h1, if Truthy(t.v) then conseq else alt, env)
    ensures var (h1, t) := Eval(fuel - 1, h, test, env);
      t.Normal? && Truthy(t.v) ==>
        Eval(fuel, h, List([Sym("if"), test, conseq, alt]), env) ==
        Eval(fuel, h, List([Sym("if"), test, conseq, other]), env)
    ensures var (h1, t) := Eval(fuel - 1, h, test, env);
      t.Normal? && !Truthy(t.v) ==>
        Eval(fuel, h, List([Sym("if"), test, conseq, alt]), env) ==
        Eval(fuel, h, List([Sym("if"), test, other, alt]), env)
  {
  }

  /** A three-item `if` whose test is false answers null, the missing alternative. */
  lemma EvalIfWithoutAlternative(fuel: nat, h: Heap, test: Value, conseq: Value, env: nat)
    requires fuel >= 2
    ensures var (h1, t) := Eval(fuel - 1, h, test, env);
      t.Normal? && !Truthy(t.v) ==> Eval(fuel, h, List([Sym("if"), test, conseq]), env) == (h1, Normal(Nil))
  {
    var (h1, t) := Eval(fuel - 1, h, test, env);
    assert At([Sym("if"), test, conseq], 3) == Nil;
    assert Eval(fuel - 1, h1, Nil, env) == (h1, Normal(Nil));
  }

  /**
   * `begin` evaluates its forms in order and answers the value of the last;
   * the forms before it count only through the state they leave.
   */
  lemma {:induction false} EvalSeqLast(fuel: nat, h: Heap, xs: seq<Value>, y: Value, env: nat, last: Value)
    ensures EvalSeq(fuel, h, xs + [y], env, last) ==
      var (h1, o) := EvalSeq(fuel, h, xs, env, last);
      if o.Normal? then Eval(fuel, h1, y, env) else (h1, o)
    decreases |xs|
  {
    if xs == [] {
      assert [y][1..] == [];
    } else {
      assert (xs + [y])[1..] == xs[1..] + [y];
      var (h1, o) := Eval(fuel, h, xs[0], env);
      if o.Normal? {
        EvalSeqLast(fuel, h1, xs[1..], y, env, o.v);
      }
    }
  }

  /** `(begin)` answers null, the value of a `foreach` that never ran. */
  lemma EvalEmptyBegin(fuel: nat, h: Heap, env: nat)
    requires fuel >= 2
    ensures Eval(fuel, h, List([Sym("begin")]), env) == (h, Normal(Nil))
  {
    assert [Sym("begin")][1..] == [];
    assert EvalSeq(fuel - 1, h, [], env, Nil) == (h, Normal(Nil));
    assert Eval(fuel, h, List([Sym("begin")]), env) == EvalForm(fuel, h, [Sym("begin")], env);
  }

  /**
   * `set!` of a name no frame of the chain holds raises LookupError before
   * its expression is evaluated, so nothing changes.
   */
  lemma EvalSetUnbound(fuel: nat, h: Heap, name: string, e: Value, env: nat)
    requires fuel >= 1 && Find(h.frames, env, name).Err?
    ensures Eval(fuel, h, List([Sym("set!"), Sym(name), e]), env) == (h, Fail(LookupError))
  {
  }

  /**
   * `set!` writes the new value through `setAt` on the frame `find`
   * answered, and answers `None`.
   */
  lemma EvalSetFound(fuel: nat, h: Heap, name: string, e: Value, env: nat)
    requires fuel >= 1 && Find(h.frames, env, name).Ok?
    ensures var (h1, o) := Eval(fuel - 1, h, e, env);
      o.Normal? ==>
        Eval(fuel, h, List([Sym("set!"), Sym(name), e]), env) ==
        (h1.(frames := SetAtF(h1.frames, Find(h.frames, env, name).value, name, o.v)), Normal(NoneValue))
  {
  }

  /**
   * After `(define name e)` in a frame whose outer frame does not hold the
   * name, the name looks up to e's value, and every other name looks up
   * as it did after evaluating e.
   */
  lemma EvalDefineBinds(fuel: nat, h: Heap, name: string, e: Value, env: nat, other: string)
    requires fuel >= 1 && other != name
    ensures var (h1, o) := Eval(fuel - 1, h, e, env);
      o.Normal? && o.v != Nil && env < |h1.frames| &&
      (Outer(h1.frames, env).Some? ==> !Holds(h1.frames[Outer(h1.frames, env).value], name)) ==>
        var (h2, r) := Eval(fuel, h, List([Sym("define"), Sym(name), e]), env);
        r == Normal(NoneValue) && Lookup(h2.frames, env, name) == o &&
        Lookup(h2.frames, env, other) == Lookup(h1.frames, env, other)
  {
    var (h1, o) := Eval(fuel - 1, h, e, env);
    if o.Normal? && o.v != Nil && env < |h1.frames| &&
      (Outer(h1.frames, env).Some? ==> !Holds(h1.frames[Outer(h1.frames, env).value], name)) {
      LispEnvProps.LookupAfterSetAt(h1.frames, env, name, o.v);
      LispEnvProps.SetAtKeepsOtherNames(h1.frames, env, name, o.v, env, other);
    }
  }

  /** An application whose operator is not a special form: the values of all its items, left to right. */
  predicate IsApplication(items: seq<Value>) {
    items != [] &&
    forall k :: k in ["quote", "if", "set!", "define", "lambda", "begin"] ==> !IsSym(items[0], k)
  }

  /**
   * Applying a user procedure continues with its body in a new frame over
   * the procedure's own frame, on the same step budget, as the loop of
   * `_eval` does, rather than calling the evaluator anew.
   */
  lemma EvalAppliesProcedure(fuel: nat, h: Heap, items: seq<Value>, env: nat)
    requires fuel >= 1 && IsApplication(items)
    ensures var (h1, o) := EvalArgs(fuel - 1, h, items, env, []);
      o.Normal? && o.v.items[0].Closure? ==>
        var p := o.v.items[0];
        Eval(fuel, h, List(items), env) ==
          match NewFrame(h1.frames, p.parms, o.v.items[1..], Some(p.env))
          case Err(f) => (h1, Fail(f))
          case Ok(fs) => Eval(fuel - 1, h1.(frames := fs), p.body, |h1.frames|)
  {
    assert !IsSym(items[0], "quote") && !IsSym(items[0], "if") && !IsSym(items[0], "set!");
    assert !IsSym(items[0], "define") && !IsSym(items[0], "lambda") && !IsSym(items[0], "begin");
  }

  /** A procedure called with the wrong number of arguments for its parameter list raises TypeError. */
  lemma ApplyArityMismatch(fuel: nat, h: Heap, parms: seq<Value>, body: Value, e: nat, args: seq<Value>)
    requires fuel >= 1 && |args| != |parms|
    ensures Apply(fuel, h, Closure(List(parms), body, e), args) == (h, Fail(TypeError))
  {
  }

  /**
   * `callcc` answers the value thrown to its own escape closure, and lets
   * every other ball through unchanged.
   */
  lemma CallccCatchesOwnBall(fuel: nat, h: Heap, f: Value)
    requires fuel >= 2
    ensures var t := h.balls;
      var (h1, o) := Apply(fuel - 1, h.(balls := t + 1), f, [Escaper(t)]);
      Callcc(fuel, h, [f]) == (h1, if o.Escape? && o.ball == t then Normal(o.v) else o)
    ensures var t := h.balls;
      var (h1, o) := Apply(fuel - 1, h.(balls := t + 1), f, [Escaper(t)]);
      o.Escape? && o.ball != t ==> Callcc(fuel, h, [f]) == (h1, o)
  {
  }

  /**
   * A ball thrown by an escape closure made before this `callcc` call is
   * never caught by it: its ball number is below the fresh one.
   */
  lemma CallccPassesOlderBalls(fuel: nat, h: Heap, f: Value, b: nat, v: Value)
    requires fuel >= 2 && b < h.balls
    requires Apply(fuel - 1, h.(balls := h.balls + 1), f, [Escaper(h.balls)]).1 == Escape(b, v)
    ensures Callcc(fuel, h, [f]).1 == Escape(b, v)
  {
  }

  /** Calling an escape closure throws its ball with the first argument. */
  lemma EscaperThrows(fuel: nat, h: Heap, t: nat, v: Value, rest: seq<Value>)
    requires fuel >= 1
    ensures Apply(fuel, h, Escaper(t), [v] + rest) == (h, Escape(t, v))
  {
  }

  /** `car` and `cdr` take apart what `cons` builds. */
  lemma CarCdrOfCons(x: Value, ys: seq<Value>)
    ensures ApplyPrim(ConsOp, [x, List(ys)]) == Normal(Cons(x, ys))
    ensures ApplyPrim(Car, [Cons(x, ys)]) == Normal(x)
    ensures ApplyPrim(Cdr, [Cons(x, ys)]) == Normal(List(ys))
  {
  }

  /** `null?` holds of the empty list and of the values PHP's `==` finds equal to it. */
  lemma NullIff(v: Value)
    ensures ApplyPrim(IsNull, [v]) == Normal(Bool(v == List([]) || v == Bool(false) || v == Nil))
    ensures v.List? ==> (ApplyPrim(IsNull, [v]) == Normal(Bool(true)) <==> v.items == [])
  {
  }

  /** Too few arguments for a primitive's PHP closure is an error raised by PHP. */
  lemma PrimTooFewArguments(op: PrimOp, args: seq<Value>)
    requires !op.CallCC? && |args| < Arity(op)
    ensures ApplyPrim(op, args) == Fail(HostError)
  {
  }

  /** `append` concatenates, and `length` counts the items of the result. */
  lemma AppendLength(xs: seq<Value>, ys: seq<Value>)
    ensures ApplyPrim(Append, [List(xs), List(ys)]) == Normal(List(xs + ys))
    ensures ApplyPrim(Length, [List(xs + ys)]) == Normal(Num(|xs| + |ys|))
  {
  }
}
