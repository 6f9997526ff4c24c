/**
 * The `and` macro lisp.php defines for itself when it loads: the datum of
 * its `define-macro`, the state that expanding it leaves, and what the
 * macro makes of `(and)`, `(and x)` and `(and x y ...)`.
 */
module LispAnd {
  import opened Basics
  import opened LispValues
  import opened LispEnv
  import opened LispEval
  import opened LispEvalProps
  import opened LispEvalExamples
  import opened LispQuasi
  import opened LispExpand
  import opened LispExpandProps

  // ---------------------------------------------------------------- the datum

  /** `(op args)`, as the reader gives it. */
  function OnArgs(op: string): Value {
    List([Sym(op), Sym("args")])
  }

  /** `` `(if ,(car args) (and ,@(cdr args)) #f) `` as read. */
  function AndTemplate(): Value {
    List([Sym("if"), List([Sym("unquote"), OnArgs("car")]),
          List([Sym("and"), List([Sym("unquote-splicing"), OnArgs("cdr")])]), Bool(false)])
  }

  /** `(= (length args) 1)`. */
  function LengthIsOne(): Value {
    List([Sym("="), OnArgs("length"), Num(1)])
  }

  /** `(if (= (length args) 1) (car args) tail)`. */
  function OneTest(tail: Value): Value {
    List([Sym("if"), LengthIsOne(), OnArgs("car"), tail])
  }

  /** `(if (null? args) #t (if (= (length args) 1) (car args) tail))`. */
  function AndShape(tail: Value): Value {
    List([Sym("if"), OnArgs("null?"), Bool(true), OneTest(tail)])
  }

  /** The macro's body as read. */
  function AndBody(): Value {
    AndShape(List([Sym("quasiquote"), AndTemplate()]))
  }

  /** `(define-macro and (lambda args body))`, the datum the source parses at load time. */
  function AndDefinition(): Value {
    List([Sym("define-macro"), Sym("and"), List([Sym("lambda"), Sym("args"), AndBody()])])
  }

  /** `(quote x)`. */
  function Quoted(x: Value): Value {
    List([Sym("quote"), x])
  }

  /** `(op a b)`. */
  function Call2(op: string, a: Value, b: Value): Value {
    List([Sym(op), a, b])
  }

  /**
   * What `expand_quasiquote` makes of the template:
   * `(cons 'if (cons (car args) (cons (cons 'and (append (cdr args) '())) (cons '#f '()))))`.
   */
  function AndConstruction(): Value {
    Call2("cons", Quoted(Sym("if")),
      Call2("cons", OnArgs("car"),
        Call2("cons", AndTail(), FalseTail())))
  }

  /** The expanded body the registered procedure runs. */
  function AndExpanded(): Value {
    AndShape(AndConstruction())
  }

  /** The procedure `and` names after loading: over `args`, closed over the global frame. */
  function AndProc(): Value {
    Closure(Sym("args"), AndExpanded(), GlobalEnv)
  }

  /** The interpreter's state once lisp.php has loaded: the primitives, `let` and `and`. */
  function LoadedState(): State {
    State(InitialHeap(), InitialMacros()["and" := UserMacro(AndProc())])
  }

  // ---------------------------------------------------------------- the bootstrap

  /** The quasiquoted template becomes the `cons`/`append` construction, whatever the fuel. */
  lemma TemplateExpands(fuel: nat)
    ensures ExpandQuasi(fuel, AndTemplate()) == Normal(AndConstruction())
  {
    var splice := List([Sym("unquote-splicing"), OnArgs("cdr")]);
    var andPart := List([Sym("and"), splice]);
    assert ExpandQuasi(fuel, List([])) == Normal(Quoted(List([])));
    assert [splice][1..] == [];
    assert ExpandQuasi(fuel, List([splice])) == Normal(Call2("append", OnArgs("cdr"), Quoted(List([]))));
    assert andPart.items[1..] == [splice];
    assert ExpandQuasi(fuel, andPart) ==
      Normal(Call2("cons", Quoted(Sym("and")), Call2("append", OnArgs("cdr"), Quoted(List([])))));
    assert [Bool(false)][1..] == [];
    assert ExpandQuasi(fuel, List([Bool(false)])) == Normal(Call2("cons", Quoted(Bool(false)), Quoted(List([]))));
    var t := AndTemplate().items;
    assert t[2..][1..] == [Bool(false)];
    assert ExpandQuasi(fuel, List(t[2..])) == Normal(AndConstruction().items[2].items[2]);
    assert t[1..][1..] == t[2..];
    assert ExpandQuasi(fuel, t[1]) == Normal(OnArgs("car"));
    assert ExpandQuasi(fuel, List(t[1..])) == Normal(AndConstruction().items[2]);
  }

  /** `array_map(expand, ...)` over forms that each expand, leaving the state alone, to the matching item of ys. */
  lemma {:induction false} ExpandAllEach(fuel: nat, s: State, xs: seq<Value>, ys: seq<Value>, acc: seq<Value>)
    requires |xs| == |ys|
    requires forall i :: 0 <= i < |xs| ==> Expand(fuel, s, xs[i], false) == (s, Normal(ys[i]))
    ensures ExpandAll(fuel, s, xs, false, acc) == (s, Normal(List(acc + ys)))
    decreases |xs|
  {
    if xs == [] {
      assert acc + ys == acc;
    } else {
      assert Expand(fuel, s, xs[0], false) == (s, Normal(ys[0]));
      ExpandAllEach(fuel, s, xs[1..], ys[1..], acc + [ys[0]]);
      assert acc + [ys[0]] + ys[1..] == acc + ys;
    }
  }

  /** The heads `expand` treats as special forms. */
  predicate Keyword(name: string) {
    name in {"quote", "if", "set!", "define", "define-macro", "begin", "lambda", "quasiquote"}
  }

  /** An application of a name that is neither a keyword nor a macro expands item by item. */
  lemma ExpandCallEach(fuel: nat, s: State, op: string, args: seq<Value>, args2: seq<Value>, top: bool)
    requires fuel >= 2 && !Keyword(op) && op !in s.m && |args| == |args2|
    requires forall i :: 0 <= i < |args| ==> Expand(fuel - 1, s, args[i], false) == (s, Normal(args2[i]))
    ensures Expand(fuel, s, List([Sym(op)] + args), top) == (s, Normal(List([Sym(op)] + args2)))
  {
    var xs := [Sym(op)] + args;
    assert Expand(fuel, s, List(xs), top) == ExpandAll(fuel - 1, s, xs, false, []);
    assert Expand(fuel - 1, s, Sym(op), false) == (s, Normal(Sym(op)));
    ExpandAllStep(fuel - 1, s, Sym(op), args, false, []);
    assert [] + [Sym(op)] == [Sym(op)];
    ExpandAllEach(fuel - 1, s, args, args2, [Sym(op)]);
  }

  /** A four-item `if` is expanded item by item, below top level. */
  lemma ExpandIf(fuel: nat, s: State, a: Value, b: Value, c: Value, top: bool)
    requires fuel >= 1
    ensures Expand(fuel, s, List([Sym("if"), a, b, c]), top) == ExpandAll(fuel - 1, s, [Sym("if"), a, b, c], false, [])
  {
  }

  /** A four-item `if` expands its three operands, below top level. */
  lemma ExpandIfEach(fuel: nat, s: State, a: Value, b: Value, c: Value, a2: Value, b2: Value, c2: Value, top: bool)
    requires fuel >= 2
    requires Expand(fuel - 1, s, a, false) == (s, Normal(a2))
    requires Expand(fuel - 1, s, b, false) == (s, Normal(b2))
    requires Expand(fuel - 1, s, c, false) == (s, Normal(c2))
    ensures Expand(fuel, s, List([Sym("if"), a, b, c]), top) == (s, Normal(List([Sym("if"), a2, b2, c2])))
  {
    ExpandIfOperands(fuel, s, a, b, c, top);
    ExpandAllThree(fuel - 1, s, a, b, c, a2, b2, c2);
  }

  /** `array_map(expand, ...)` after the `if` keyword, over three operands that each expand without effect. */
  lemma ExpandAllThree(fuel: nat, s: State, a: Value, b: Value, c: Value, a2: Value, b2: Value, c2: Value)
    requires Expand(fuel, s, a, false) == (s, Normal(a2))
    requires Expand(fuel, s, b, false) == (s, Normal(b2))
    requires Expand(fuel, s, c, false) == (s, Normal(c2))
    ensures ExpandAll(fuel, s, [a, b, c], false, [Sym("if")]) == (s, Normal(List([Sym("if"), a2, b2, c2])))
  {
    assert ExpandAll(fuel, s, [], false, [Sym("if"), a2, b2, c2]) == (s, Normal(List([Sym("if"), a2, b2, c2])));
    ExpandAllStep(fuel, s, c, [], false, [Sym("if"), a2, b2]);
    assert [c] + [] == [c] && [Sym("if"), a2, b2] + [c2] == [Sym("if"), a2, b2, c2];
    ExpandAllStep(fuel, s, b, [c], false, [Sym("if"), a2]);
    assert [b] + [c] == [b, c] && [Sym("if"), a2] + [b2] == [Sym("if"), a2, b2];
    ExpandAllStep(fuel, s, a, [b, c], false, [Sym("if")]);
    assert [a] + [b, c] == [a, b, c] && [Sym("if")] + [a2] == [Sym("if"), a2];
  }

  /** After its keyword, an `if` maps `expand` over its three operands. */
  lemma ExpandIfOperands(fuel: nat, s: State, a: Value, b: Value, c: Value, top: bool)
    requires fuel >= 2
    ensures Expand(fuel, s, List([Sym("if"), a, b, c]), top) == ExpandAll(fuel - 1, s, [a, b, c], false, [Sym("if")])
  {
    ExpandIf(fuel, s, a, b, c, top);
    assert Expand(fuel - 1, s, Sym("if"), false) == (s, Normal(Sym("if")));
    ExpandAllStep(fuel - 1, s, Sym("if"), [a, b, c], false, []);
    assert [Sym("if")] + [a, b, c] == [Sym("if"), a, b, c] && [] + [Sym("if")] == [Sym("if")];
  }

  /** `(op args)` expands to itself when op names no macro. */
  lemma OnArgsExpands(fuel: nat, s: State, op: string)
    requires fuel >= 2 && op !in s.m && !Keyword(op)
    ensures Expand(fuel, s, OnArgs(op), false) == (s, Normal(OnArgs(op)))
  {
    assert Expand(fuel - 1, s, Sym("args"), false) == (s, Normal(Sym("args")));
    ExpandCallEach(fuel, s, op, [Sym("args")], [Sym("args")], false);
    assert OnArgs(op) == List([Sym(op)] + [Sym("args")]);
  }

  /** The names the macro's body calls, none of which a macro may shadow. */
  predicate CallsUnshadowed(m: Macros) {
    "null?" !in m && "=" !in m && "length" !in m && "car" !in m
  }

  /** `(= (length args) 1)` expands to itself. */
  lemma EqExpands(fuel: nat, s: State)
    requires fuel >= 3 && CallsUnshadowed(s.m)
    ensures Expand(fuel, s, LengthIsOne(), false) == (s, Normal(LengthIsOne()))
  {
    var args := [OnArgs("length"), Num(1)];
    assert !Keyword("length") && !Keyword("=");
    OnArgsExpands(fuel - 1, s, "length");
    assert Expand(fuel - 1, s, Num(1), false) == (s, Normal(Num(1)));
    ExpandCallEach(fuel, s, "=", args, args, false);
    assert LengthIsOne() == List([Sym("=")] + args);
  }

  /** The inner `if` expands its quasiquote and nothing else. */
  lemma OneTestExpands(fuel: nat, s: State)
    requires fuel >= 4 && CallsUnshadowed(s.m)
    ensures Expand(fuel, s, OneTest(List([Sym("quasiquote"), AndTemplate()])), false) ==
            (s, Normal(OneTest(AndConstruction())))
  {
    var quasi := List([Sym("quasiquote"), AndTemplate()]);
    EqExpands(fuel - 1, s);
    assert !Keyword("car");
    OnArgsExpands(fuel - 1, s, "car");
    TemplateExpands(fuel - 2);
    assert Expand(fuel - 1, s, quasi, false) == (s, Normal(AndConstruction()));
    ExpandIfEach(fuel, s, LengthIsOne(), OnArgs("car"), quasi, LengthIsOne(), OnArgs("car"), AndConstruction(), false);
  }

  /** The body expands to AndExpanded: the only rewrite is the quasiquote's. */
  lemma BodyExpands(fuel: nat, s: State)
    requires fuel >= 5 && CallsUnshadowed(s.m)
    ensures Expand(fuel, s, AndBody(), false) == (s, Normal(AndExpanded()))
  {
    OneTestExpands(fuel - 1, s);
    assert !Keyword("null?");
    OnArgsExpands(fuel - 1, s, "null?");
    assert Expand(fuel - 1, s, Bool(true), false) == (s, Normal(Bool(true)));
    ExpandIfEach(fuel, s, OnArgs("null?"), Bool(true), OneTest(List([Sym("quasiquote"), AndTemplate()])),
                 OnArgs("null?"), Bool(true), OneTest(AndConstruction()), false);
  }

  /**
   * Loading lisp.php expands its `define-macro and` at top level: the
   * frames do not change, and `and` is registered as AndProc beside `let`.
   * The `_eval` of the expansion's None that follows is the None itself.
   */
  lemma AndBootstrap(fuel: nat)
    requires fuel >= 8
    ensures Expand(fuel, State(InitialHeap(), InitialMacros()), AndDefinition(), true) ==
            (LoadedState(), Normal(NoneValue))
    ensures Eval(fuel, InitialHeap(), NoneValue, GlobalEnv) == (InitialHeap(), Normal(NoneValue))
  {
    var s := State(InitialHeap(), InitialMacros());
    BodyExpands(fuel - 3, s);
    DefineMacroLambdaRegisters(fuel, s, "and", Sym("args"), AndBody());
  }

  // ---------------------------------------------------------------- calling the macro

  /** The global frame binds name to the primitive p. */
  predicate Binds(h: Heap, name: string, p: PrimOp) {
    |h.frames| > 0 && name in h.frames[0].vals && h.frames[0].vals[name] == Prim(p)
  }

  /** What the expanded body needs of the global frame: its primitives, and no global `args`. */
  predicate PrimitivesBound(h: Heap) {
    Binds(h, "null?", IsNull) && Binds(h, "=", NumEq) && Binds(h, "length", Length) &&
    Binds(h, "car", Car) && Binds(h, "cdr", Cdr) && Binds(h, "cons", ConsOp) &&
    Binds(h, "append", Append) && !Holds(h.frames[0], "args")
  }

  /** The heap a call of AndProc on xs runs in: a new frame binding `args` to their list, over the global frame. */
  function CallHeap(h: Heap, xs: seq<Value>): Heap {
    Heap(h.frames + [Frame(map["args" := List(xs)], Some(GlobalEnv))], h.balls)
  }

  /** `$x[1..]` as `cdr` gives it: empty for an empty list. */
  function Tail(xs: seq<Value>): seq<Value> {
    if xs == [] then [] else xs[1..]
  }

  /** Calling AndProc binds `args` in a new frame, where the expanded body runs. */
  lemma ApplyAndProc(fuel: nat, h: Heap, xs: seq<Value>)
    requires fuel >= 1 && |h.frames| > 0 && !Holds(h.frames[0], "args")
    ensures Apply(fuel, h, AndProc(), xs) == Eval(fuel - 1, CallHeap(h, xs), AndExpanded(), |h.frames|)
  {
    var e := |h.frames|;
    var fs := h.frames + [Frame(map[], Some(GlobalEnv))];
    assert Outer(fs, e) == Some(GlobalEnv) && fs[GlobalEnv] == h.frames[0];
    assert Put(fs[e], "args", List(xs)) == Frame(map["args" := List(xs)], Some(GlobalEnv));
    assert SetAtF(fs, e, "args", List(xs)) == CallHeap(h, xs).frames;
    assert NewFrame(h.frames, Sym("args"), xs, Some(GlobalEnv)) == Ok(CallHeap(h, xs).frames);
  }

  /** In the call's frame, `args` is the argument list and every other name is the global one. */
  lemma CallScope(h: Heap, xs: seq<Value>, name: string, p: PrimOp)
    requires |h.frames| > 0
    ensures Lookup(CallHeap(h, xs).frames, |h.frames|, "args") == Normal(List(xs))
    ensures name != "args" && Binds(h, name, p) ==> Lookup(CallHeap(h, xs).frames, |h.frames|, name) == Normal(Prim(p))
  {
    var fs := CallHeap(h, xs).frames;
    var e := |h.frames|;
    assert Holds(fs[e], "args");
    if name != "args" && Binds(h, name, p) {
      assert !Holds(fs[e], name) && Outer(fs, e) == Some(GlobalEnv);
      assert Holds(fs[GlobalEnv], name);
      assert Find(fs, e, name) == Ok(GlobalEnv);
    }
  }

  /** `(op a)` with op a primitive other than `call/cc` and a evaluating without effect. */
  lemma EvalCall1(fuel: nat, h: Heap, env: nat, op: string, p: PrimOp, a: Value, va: Value)
    requires fuel >= 2 && !p.CallCC? && op !in SpecialForms
    requires Lookup(h.frames, env, op) == Normal(Prim(p))
    requires Eval(fuel - 1, h, a, env) == (h, Normal(va))
    ensures Eval(fuel, h, List([Sym(op), a]), env) == (h, ApplyPrim(p, [va]))
  {
    var f := fuel - 1;
    var done := (h, Normal(List([Prim(p), va])));
    assert EvalArgs(f, h, [], env, [Prim(p), va]) == done;
    EvalArgsStep(f, h, a, [], env, [Prim(p)]);
    assert [a] + [] == [a] && [Prim(p)] + [va] == [Prim(p), va];
    assert EvalArgs(f, h, [a], env, [Prim(p)]) == done;
    assert Eval(f, h, Sym(op), env) == (h, Normal(Prim(p)));
    EvalArgsStep(f, h, Sym(op), [a], env, []);
    assert [Sym(op)] + [a] == [Sym(op), a] && [] + [Prim(p)] == [Prim(p)];
    assert EvalArgs(f, h, [Sym(op), a], env, []) == done;
    EvalApplication(fuel, h, [Sym(op), a], env, h, Prim(p), [va]);
  }

  /** The items of `(op a b)` evaluate to the primitive, then a's and b's values. */
  lemma ArgsOfCall2(f: nat, h: Heap, env: nat, op: string, p: PrimOp, a: Value, b: Value, va: Value, vb: Value)
    requires Lookup(h.frames, env, op) == Normal(Prim(p))
    requires Eval(f, h, a, env) == (h, Normal(va))
    requires Eval(f, h, b, env) == (h, Normal(vb))
    ensures EvalArgs(f, h, [Sym(op), a, b], env, []) == (h, Normal(List([Prim(p), va, vb])))
  {
    var done := (h, Normal(List([Prim(p), va, vb])));
    assert EvalArgs(f, h, [], env, [Prim(p), va, vb]) == done;
    EvalArgsStep(f, h, b, [], env, [Prim(p), va]);
    assert [b] + [] == [b] && [Prim(p), va] + [vb] == [Prim(p), va, vb];
    assert EvalArgs(f, h, [b], env, [Prim(p), va]) == done;
    EvalArgsStep(f, h, a, [b], env, [Prim(p)]);
    assert [a] + [b] == [a, b] && [Prim(p)] + [va] == [Prim(p), va];
    assert EvalArgs(f, h, [a, b], env, [Prim(p)]) == done;
    assert Eval(f, h, Sym(op), env) == (h, Normal(Prim(p)));
    EvalArgsStep(f, h, Sym(op), [a, b], env, []);
    assert [Sym(op)] + [a, b] == [Sym(op), a, b] && [] + [Prim(p)] == [Prim(p)];
  }

  /** `(op a b)` with op a primitive other than `call/cc` and a, b evaluating without effect. */
  lemma EvalCall2(fuel: nat, h: Heap, env: nat, op: string, p: PrimOp, a: Value, b: Value, va: Value, vb: Value)
    requires fuel >= 2 && !p.CallCC? && op !in SpecialForms
    requires Lookup(h.frames, env, op) == Normal(Prim(p))
    requires Eval(fuel - 1, h, a, env) == (h, Normal(va))
    requires Eval(fuel - 1, h, b, env) == (h, Normal(vb))
    ensures Eval(fuel, h, Call2(op, a, b), env) == (h, ApplyPrim(p, [va, vb]))
  {
    ArgsOfCall2(fuel - 1, h, env, op, p, a, b, va, vb);
    assert [Prim(p)] + [va, vb] == [Prim(p), va, vb];
    EvalApplication(fuel, h, [Sym(op), a, b], env, h, Prim(p), [va, vb]);
  }

  /** `(quote x)` is x. */
  lemma QuoteValue(fuel: nat, h: Heap, env: nat, x: Value)
    requires fuel >= 1
    ensures Eval(fuel, h, Quoted(x), env) == (h, Normal(x))
  {
  }

  /** `(op args)` in the call's frame applies the global primitive to the argument list. */
  lemma OnArgsValue(fuel: nat, h: Heap, xs: seq<Value>, op: string, p: PrimOp)
    requires fuel >= 2 && op != "args" && Binds(h, op, p) && !p.CallCC? && op !in SpecialForms
    ensures Eval(fuel, CallHeap(h, xs), OnArgs(op), |h.frames|) == (CallHeap(h, xs), ApplyPrim(p, [List(xs)]))
  {
    CallScope(h, xs, op, p);
    EvalCall1(fuel, CallHeap(h, xs), |h.frames|, op, p, Sym("args"), List(xs));
  }

  /** `(cons a b)` in the call's frame, with a and b evaluating without effect and b to a list. */
  lemma ConsValue(fuel: nat, h: Heap, xs: seq<Value>, a: Value, b: Value, va: Value, vb: seq<Value>)
    requires fuel >= 2 && PrimitivesBound(h)
    requires Eval(fuel - 1, CallHeap(h, xs), a, |h.frames|) == (CallHeap(h, xs), Normal(va))
    requires Eval(fuel - 1, CallHeap(h, xs), b, |h.frames|) == (CallHeap(h, xs), Normal(List(vb)))
    ensures Eval(fuel, CallHeap(h, xs), Call2("cons", a, b), |h.frames|) == (CallHeap(h, xs), Normal(List([va] + vb)))
  {
    ConsInScope(h, xs);
    EvalCall2(fuel, CallHeap(h, xs), |h.frames|, "cons", ConsOp, a, b, va, List(vb));
  }

  /** `cons` names the global primitive in the call's frame. */
  lemma ConsInScope(h: Heap, xs: seq<Value>)
    requires PrimitivesBound(h)
    ensures "cons" !in SpecialForms
    ensures Lookup(CallHeap(h, xs).frames, |h.frames|, "cons") == Normal(Prim(ConsOp))
  {
    CallScope(h, xs, "cons", ConsOp);
  }

  /** The tail expression `(append (cdr args) '())`. */
  function AppendCdr(): Value {
    Call2("append", OnArgs("cdr"), Quoted(List([])))
  }

  /** `(append (cdr args) '())` is the arguments but the first. */
  lemma AppendCdrValue(fuel: nat, h: Heap, xs: seq<Value>)
    requires fuel >= 3 && PrimitivesBound(h)
    ensures Eval(fuel, CallHeap(h, xs), AppendCdr(), |h.frames|) == (CallHeap(h, xs), Normal(List(Tail(xs))))
  {
    var hc := CallHeap(h, xs);
    var e := |h.frames|;
    CdrValue(fuel - 1, h, xs);
    QuoteValue(fuel - 1, hc, e, List([]));
    AppendInScope(h, xs);
    EvalCall2(fuel, hc, e, "append", Append, OnArgs("cdr"), Quoted(List([])), List(Tail(xs)), List([]));
    assert Tail(xs) + [] == Tail(xs);
  }

  /** `(cdr args)` is the arguments but the first. */
  lemma CdrValue(fuel: nat, h: Heap, xs: seq<Value>)
    requires fuel >= 2 && PrimitivesBound(h)
    ensures Eval(fuel, CallHeap(h, xs), OnArgs("cdr"), |h.frames|) == (CallHeap(h, xs), Normal(List(Tail(xs))))
  {
    assert "cdr" !in SpecialForms;
    OnArgsValue(fuel, h, xs, "cdr", Cdr);
  }

  /** `append` names the global primitive in the call's frame. */
  lemma AppendInScope(h: Heap, xs: seq<Value>)
    requires PrimitivesBound(h)
    ensures "append" !in SpecialForms
    ensures Lookup(CallHeap(h, xs).frames, |h.frames|, "append") == Normal(Prim(Append))
  {
    CallScope(h, xs, "append", Append);
  }

  /** `(cons 'and (append (cdr args) '()))`. */
  function AndTail(): Value {
    Call2("cons", Quoted(Sym("and")), AppendCdr())
  }

  /** `(cons 'and (append (cdr args) '()))` is `and` followed by all arguments but the first. */
  lemma AndTailValue(fuel: nat, h: Heap, xs: seq<Value>)
    requires fuel >= 4 && PrimitivesBound(h)
    ensures Eval(fuel, CallHeap(h, xs), AndTail(), |h.frames|) == (CallHeap(h, xs), Normal(List([Sym("and")] + Tail(xs))))
  {
    AppendCdrValue(fuel - 1, h, xs);
    QuoteValue(fuel - 1, CallHeap(h, xs), |h.frames|, Sym("and"));
    ConsValue(fuel, h, xs, Quoted(Sym("and")), AppendCdr(), Sym("and"), Tail(xs));
  }

  /** `(cons '#f '())`. */
  function FalseTail(): Value {
    Call2("cons", Quoted(Bool(false)), Quoted(List([])))
  }

  /** `(cons '#f '())` is the list holding false. */
  lemma FalseTailValue(fuel: nat, h: Heap, xs: seq<Value>)
    requires fuel >= 2 && PrimitivesBound(h)
    ensures Eval(fuel, CallHeap(h, xs), FalseTail(), |h.frames|) == (CallHeap(h, xs), Normal(List([Bool(false)])))
  {
    QuoteValue(fuel - 1, CallHeap(h, xs), |h.frames|, Bool(false));
    QuoteValue(fuel - 1, CallHeap(h, xs), |h.frames|, List([]));
    ConsValue(fuel, h, xs, Quoted(Bool(false)), Quoted(List([])), Bool(false), []);
    assert [Bool(false)] + [] == [Bool(false)];
  }

  /** `(cons (cons 'and ...) (cons '#f '()))` is the last two items of the `if` the macro builds. */
  lemma RestValue(fuel: nat, h: Heap, xs: seq<Value>)
    requires fuel >= 5 && PrimitivesBound(h)
    ensures Eval(fuel, CallHeap(h, xs), Call2("cons", AndTail(), FalseTail()), |h.frames|)
         == (CallHeap(h, xs), Normal(List([List([Sym("and")] + Tail(xs)), Bool(false)])))
  {
    AndTailValue(fuel - 1, h, xs);
    FalseTailValue(fuel - 1, h, xs);
    ConsValue(fuel, h, xs, AndTail(), FalseTail(), List([Sym("and")] + Tail(xs)), [Bool(false)]);
    assert [List([Sym("and")] + Tail(xs))] + [Bool(false)] == [List([Sym("and")] + Tail(xs)), Bool(false)];
  }

  /** `(cons (car args) ...)`: the first argument, then those two items. */
  lemma CarRestValue(fuel: nat, h: Heap, xs: seq<Value>)
    requires fuel >= 6 && PrimitivesBound(h)
    ensures Eval(fuel, CallHeap(h, xs), Call2("cons", OnArgs("car"), Call2("cons", AndTail(), FalseTail())), |h.frames|)
         == (CallHeap(h, xs), Normal(List([At(xs, 0), List([Sym("and")] + Tail(xs)), Bool(false)])))
  {
    assert "car" !in SpecialForms;
    OnArgsValue(fuel - 1, h, xs, "car", Car);
    RestValue(fuel - 1, h, xs);
    ConsValue(fuel, h, xs, OnArgs("car"), Call2("cons", AndTail(), FalseTail()),
              At(xs, 0), [List([Sym("and")] + Tail(xs)), Bool(false)]);
    assert [At(xs, 0)] + [List([Sym("and")] + Tail(xs)), Bool(false)] == [At(xs, 0), List([Sym("and")] + Tail(xs)), Bool(false)];
  }

  /** The construction the template became builds `(if x (and rest...) #f)` from the arguments. */
  lemma ConstructionValue(fuel: nat, h: Heap, xs: seq<Value>)
    requires fuel >= 7 && PrimitivesBound(h)
    ensures Eval(fuel, CallHeap(h, xs), AndConstruction(), |h.frames|)
         == (CallHeap(h, xs), Normal(List([Sym("if"), At(xs, 0), List([Sym("and")] + Tail(xs)), Bool(false)])))
  {
    CarRestValue(fuel - 1, h, xs);
    QuoteValue(fuel - 1, CallHeap(h, xs), |h.frames|, Sym("if"));
    ConsValue(fuel, h, xs, Quoted(Sym("if")), Call2("cons", OnArgs("car"), Call2("cons", AndTail(), FalseTail())),
              Sym("if"), [At(xs, 0), List([Sym("and")] + Tail(xs)), Bool(false)]);
    assert [Sym("if")] + [At(xs, 0), List([Sym("and")] + Tail(xs)), Bool(false)]
        == [Sym("if"), At(xs, 0), List([Sym("and")] + Tail(xs)), Bool(false)];
  }

  /** `(= (length args) 1)` holds exactly when there is one argument. */
  lemma LengthIsOneValue(fuel: nat, h: Heap, xs: seq<Value>)
    requires fuel >= 3 && PrimitivesBound(h)
    ensures Eval(fuel, CallHeap(h, xs), LengthIsOne(), |h.frames|) == (CallHeap(h, xs), Normal(Bool(|xs| == 1)))
  {
    var hc := CallHeap(h, xs);
    assert "length" !in SpecialForms && "=" !in SpecialForms;
    OnArgsValue(fuel - 1, h, xs, "length", Length);
    assert Eval(fuel - 1, hc, Num(1), |h.frames|) == (hc, Normal(Num(1)));
    CallScope(h, xs, "=", NumEq);
    EvalCall2(fuel, hc, |h.frames|, "=", NumEq, OnArgs("length"), Num(1), Num(|xs|), Num(1));
    assert LengthIsOne() == Call2("=", OnArgs("length"), Num(1));
  }

  /** What the macro returns for the arguments xs: `#t`, the one argument, or `(if x (and rest...) #f)`. */
  function AndResult(xs: seq<Value>): Value {
    if xs == [] then Bool(true)
    else if |xs| == 1 then xs[0]
    else List([Sym("if"), xs[0], List([Sym("and")] + xs[1..]), Bool(false)])
  }

  /** With at least one argument, the inner `if` chooses between the argument and the construction. */
  lemma OneTestValue(fuel: nat, h: Heap, xs: seq<Value>)
    requires fuel >= 8 && PrimitivesBound(h) && xs != []
    ensures Eval(fuel, CallHeap(h, xs), OneTest(AndConstruction()), |h.frames|) == (CallHeap(h, xs), Normal(AndResult(xs)))
  {
    var hc := CallHeap(h, xs);
    LengthIsOneValue(fuel - 1, h, xs);
    EvalIfChoosesBranch(fuel, hc, LengthIsOne(), OnArgs("car"), AndConstruction(), Nil, |h.frames|);
    if |xs| == 1 {
      assert "car" !in SpecialForms;
      OnArgsValue(fuel - 1, h, xs, "car", Car);
    } else {
      ConstructionValue(fuel - 1, h, xs);
    }
  }

  /** The expanded body returns AndResult of the arguments, in the call's frame. */
  lemma BodyValue(fuel: nat, h: Heap, xs: seq<Value>)
    requires fuel >= 9 && PrimitivesBound(h)
    ensures Eval(fuel, CallHeap(h, xs), AndExpanded(), |h.frames|) == (CallHeap(h, xs), Normal(AndResult(xs)))
  {
    var hc := CallHeap(h, xs);
    assert "null?" !in SpecialForms;
    OnArgsValue(fuel - 1, h, xs, "null?", IsNull);
    assert ApplyPrim(IsNull, [List(xs)]) == Normal(Bool(xs == []));
    EvalIfChoosesBranch(fuel, hc, OnArgs("null?"), Bool(true), OneTest(AndConstruction()), Nil, |h.frames|);
    if xs != [] {
      OneTestValue(fuel - 1, h, xs);
    }
  }

  // ---------------------------------------------------------------- expanding `and`

  /** A state in which `and` is the procedure loading registers, over a global frame with its primitives. */
  predicate AndReady(s: State) {
    "and" in s.m && s.m["and"] == UserMacro(AndProc()) && PrimitivesBound(s.h)
  }

  /** The state after loading is such a state, and it still has the built-in `let`. */
  lemma LoadedIsReady()
    ensures AndReady(LoadedState())
    ensures "let" in LoadedState().m && LoadedState().m["let"] == LetMacro
  {
    assert InitialHeap().frames[0].vals == PrimitiveTable();
  }

  /**
   * `(and x...)` calls the macro on the unexpanded arguments and expands
   * what it returns at the same level: `(and)` becomes `#t`, `(and x)`
   * becomes x, and `(and x y ...)` becomes `(if x (and y ...) #f)`, which
   * is expanded in turn. The call's frame stays behind in the arena.
   */
  lemma ExpandAnd(fuel: nat, s: State, xs: seq<Value>, top: bool)
    requires fuel >= 11 && AndReady(s)
    ensures Expand(fuel, s, List([Sym("and")] + xs), top) ==
            Expand(fuel - 1, State(CallHeap(s.h, xs), s.m), AndResult(xs), top)
  {
    assert !Keyword("and");
    ExpandMacroCall(fuel, s, "and", xs, top);
    ApplyAndMacro(fuel - 1, s, xs);
  }

  /** A call of a macro name expands what the macro returns, at the same level. */
  lemma ExpandMacroCall(fuel: nat, s: State, name: string, xs: seq<Value>, top: bool)
    requires fuel >= 1 && !Keyword(name) && name in s.m
    ensures Expand(fuel, s, List([Sym(name)] + xs), top) ==
      var (s1, o) := ApplyMacro(fuel - 1, s, s.m[name], xs);
      if o.Normal? then Expand(fuel - 1, s1, o.v, top) else (s1, o)
  {
    var items := [Sym(name)] + xs;
    assert items[0] == Sym(name) && items[1..] == xs;
  }

  /** Calling the registered procedure on xs gives AndResult(xs) and leaves the call's frame. */
  lemma ApplyAndMacro(fuel: nat, s: State, xs: seq<Value>)
    requires fuel >= 10 && AndReady(s)
    ensures ApplyMacro(fuel, s, UserMacro(AndProc()), xs) == (State(CallHeap(s.h, xs), s.m), Normal(AndResult(xs)))
  {
    ApplyAndProc(fuel, s.h, xs);
    BodyValue(fuel - 1, s.h, xs);
  }

  /** The test `(and)`: it expands to `#t`, which evaluates to true. */
  lemma ExpandEmptyAnd(fuel: nat, s: State, top: bool)
    requires fuel >= 11 && AndReady(s)
    ensures Expand(fuel, s, List([Sym("and")]), top) == (State(CallHeap(s.h, []), s.m), Normal(Bool(true)))
    ensures Eval(fuel, CallHeap(s.h, []), Bool(true), GlobalEnv) == (CallHeap(s.h, []), Normal(Bool(true)))
  {
    ExpandAnd(fuel, s, [], top);
    assert [Sym("and")] + [] == [Sym("and")];
  }
}
