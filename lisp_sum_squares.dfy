/**
 * The tail-recursion test of lisp.php's suite: `sum-squares-range`, whose
 * inner procedure `sumsq-acc` calls itself once per number of the range.
 * The programs below are the definitions as `expand` leaves them, and the
 * lemmas follow `_eval` through every call, for ranges of any length.
 *
 * Each call of `sumsq-acc` builds a frame whose outer frame already binds
 * `start` and `end`, so `setAt` writes the new `start` and `end` into that
 * outer frame, and the new frame holds `acc` alone; the lookups still find
 * the values of the current call.
 */
module LispSumSquares {
  import opened Basics
  import opened LispValues
  import opened LispEnv
  import opened LispEval
  import LispEnvProps
  import LispEvalProps
  import LispEvalExamples

  // ---------------------------------------------------------------- the programs

  function S(name: string): Value { Sym(name) }

  /** `(if (> start end) acc (sumsq-acc (+ start 1) end (+ (* start start) acc)))`. */
  function AccBody(): Value {
    List([S("if"), List([S(">"), S("start"), S("end")]), S("acc"), List(AccCall())])
  }

  /** `(sumsq-acc (+ start 1) end (+ (* start start) acc))`. */
  function AccCall(): seq<Value> {
    [S("sumsq-acc"), List([S("+"), S("start"), Num(1)]), S("end"),
     List([S("+"), List([S("*"), S("start"), S("start")]), S("acc")])]
  }

  function AccParms(): Value { List([S("start"), S("end"), S("acc")]) }

  /** The procedure `sumsq-acc` after its definition in frame d. */
  function AccProc(d: nat): Value { Closure(AccParms(), AccBody(), d) }

  /**
   * The body of `sum-squares-range`, its two forms wrapped in `begin`:
   * `(begin (define sumsq-acc (lambda (start end acc) ...)) (sumsq-acc start end 0))`.
   */
  function RangeBody(): Value {
    List([S("begin"), RangeDefine(), List(RangeCall())])
  }

  function RangeDefine(): Value {
    List([S("define"), S("sumsq-acc"), List([S("lambda"), AccParms(), AccBody()])])
  }

  function RangeCall(): seq<Value> { [S("sumsq-acc"), S("start"), S("end"), Num(0)] }

  /** The procedure `sum-squares-range`, defined in frame g. */
  function RangeProc(g: nat): Value { Closure(List([S("start"), S("end")]), RangeBody(), g) }

  // ---------------------------------------------------------------- what it computes

  /** k² + (k+1)² + … + n², and 0 for an empty range. */
  function SumSquares(k: int, n: int): int
    decreases n - k
  {
    if k > n then 0 else k * k + SumSquares(k + 1, n)
  }

  /** The number of calls of `sumsq-acc` that recur. */
  function Count(k: int, n: int): nat {
    if k > n then 0 else n - k + 1
  }

  /** m(m+1)(2m+1), six times the sum of the squares from 1 to m. */
  function Six(m: int): int { m * (m + 1) * (2 * m + 1) }

  /** Six(m) as a polynomial, and Six(m - 1) likewise. */
  lemma SixExpanded(m: int)
    ensures Six(m) == 2 * m * m * m + 3 * m * m + m
    ensures Six(m - 1) == 2 * m * m * m - 3 * m * m + m
  {
    assert m * (m + 1) == m * m + m;
    assert (m * m + m) * (2 * m + 1) == 2 * m * m * m + 3 * m * m + m;
    assert (m - 1) * m == m * m - m;
    assert (m * m - m) * (2 * m - 1) == 2 * m * m * m - 3 * m * m + m;
  }

  /** The closed form of the sum, for any range that is not reversed by more than one. */
  lemma {:induction false} SumSquaresClosed(k: int, n: int)
    requires k <= n + 1
    ensures 6 * SumSquares(k, n) == Six(n) - Six(k - 1)
    decreases n - k
  {
    if k <= n {
      SumSquaresClosed(k + 1, n);
      SixExpanded(k);
    }
  }

  // ---------------------------------------------------------------- the frames

  /** Frame g binds the three primitives the procedures call. */
  predicate HasPrims(f: Frame) {
    ">" in f.vals && f.vals[">"] == Prim(Gt) &&
    "+" in f.vals && f.vals["+"] == Prim(Add) &&
    "*" in f.vals && f.vals["*"] == Prim(Mul)
  }

  /**
   * The frame of a `sum-squares-range` call, numbered d, over frame g, once
   * `sumsq-acc` is defined in it: `start` is k and `end` is n.
   */
  function DFrame(g: nat, d: nat, k: int, n: int): Frame {
    Frame(map["start" := Num(k), "end" := Num(n), "sumsq-acc" := AccProc(d)], Some(g))
  }

  /** Frame d is that frame, over a frame g that binds the primitives. */
  predicate Ready(fs: seq<Frame>, g: nat, d: nat, k: int, n: int) {
    g < d < |fs| && HasPrims(fs[g]) && fs[d] == DFrame(g, d, k, n)
  }

  /** Frame e is the frame of a `sumsq-acc` call: `acc` alone, over d. */
  predicate CallFrame(fs: seq<Frame>, d: nat, e: nat, acc: int) {
    d < e < |fs| && fs[e] == Frame(map["acc" := Num(acc)], Some(d))
  }

  /** `find` passes over a frame that does not hold the name to its outer frame. */
  lemma FindOuter(fs: seq<Frame>, e: nat, o: nat, name: string)
    requires o < e < |fs| && fs[e].outer == Some(o) && !Holds(fs[e], name)
    ensures Lookup(fs, e, name) == Lookup(fs, o, name)
  {
    assert Outer(fs, e) == Some(o);
    assert Find(fs, e, name) == Find(fs, o, name);
  }

  /** What the names the call's own frame d binds find from a call frame over d. */
  lemma LookupsInRange(fs: seq<Frame>, g: nat, d: nat, e: nat, k: int, n: int, acc: int)
    requires Ready(fs, g, d, k, n) && CallFrame(fs, d, e, acc)
    ensures Lookup(fs, e, "start") == Normal(Num(k)) && Lookup(fs, e, "end") == Normal(Num(n))
    ensures Lookup(fs, e, "acc") == Normal(Num(acc)) && Lookup(fs, e, "sumsq-acc") == Normal(AccProc(d))
  {
    assert Find(fs, e, "acc") == Ok(e);
    FindOuter(fs, e, d, "start");
    assert Find(fs, d, "start") == Ok(d);
    FindOuter(fs, e, d, "end");
    assert Find(fs, d, "end") == Ok(d);
    FindOuter(fs, e, d, "sumsq-acc");
    assert Find(fs, d, "sumsq-acc") == Ok(d);
  }

  /** A primitive of frame g, found from a call frame over d. */
  lemma LookupPrim(fs: seq<Frame>, g: nat, d: nat, e: nat, k: int, n: int, acc: int, name: string)
    requires Ready(fs, g, d, k, n) && CallFrame(fs, d, e, acc)
    requires name == ">" || name == "+" || name == "*"
    ensures Lookup(fs, e, name) == Normal(fs[g].vals[name])
  {
    FindOuter(fs, e, d, name);
    FindOuter(fs, d, g, name);
    assert Find(fs, g, name) == Ok(g);
  }

  // ---------------------------------------------------------------- evaluation steps

  /** Three items that evaluate without changing the heap give their values, left to right. */
  lemma Args3(fuel: nat, h: Heap, e: nat, x0: Value, x1: Value, x2: Value, v0: Value, v1: Value, v2: Value)
    requires Eval(fuel, h, x0, e) == (h, Normal(v0))
    requires Eval(fuel, h, x1, e) == (h, Normal(v1))
    requires Eval(fuel, h, x2, e) == (h, Normal(v2))
    ensures EvalArgs(fuel, h, [x0, x1, x2], e, []) == (h, Normal(List([v0] + [v1, v2])))
  {
    assert [x0, x1, x2][1..] == [x1, x2] && [x1, x2][1..] == [x2] && [x2][1..] == [];
    assert [] + [v0] == [v0] && [v0] + [v1] == [v0, v1] && [v0, v1] + [v2] == [v0] + [v1, v2];
    assert EvalArgs(fuel, h, [x0, x1, x2], e, []) == EvalArgs(fuel, h, [x1, x2], e, [v0]);
    assert EvalArgs(fuel, h, [x1, x2], e, [v0]) == EvalArgs(fuel, h, [x2], e, [v0, v1]);
    assert EvalArgs(fuel, h, [x2], e, [v0, v1]) == EvalArgs(fuel, h, [], e, [v0] + [v1, v2]);
  }

  /** The same for four items. */
  lemma Args4(fuel: nat, h: Heap, e: nat, x0: Value, x1: Value, x2: Value, x3: Value,
              v0: Value, v1: Value, v2: Value, v3: Value)
    requires Eval(fuel, h, x0, e) == (h, Normal(v0))
    requires Eval(fuel, h, x1, e) == (h, Normal(v1))
    requires Eval(fuel, h, x2, e) == (h, Normal(v2))
    requires Eval(fuel, h, x3, e) == (h, Normal(v3))
    ensures EvalArgs(fuel, h, [x0, x1, x2, x3], e, []) == (h, Normal(List([v0] + [v1, v2, v3])))
  {
    assert [x0, x1, x2, x3][1..] == [x1, x2, x3];
    assert [] + [v0] == [v0];
    assert EvalArgs(fuel, h, [x0, x1, x2, x3], e, []) == EvalArgs(fuel, h, [x1, x2, x3], e, [v0]);
    Args3Tail(fuel, h, e, x1, x2, x3, [v0], v1, v2, v3);
    assert [v0] + [v1, v2, v3] == [v0, v1, v2, v3];
  }

  /** Three items after the values in acc. */
  lemma Args3Tail(fuel: nat, h: Heap, e: nat, x0: Value, x1: Value, x2: Value, acc: seq<Value>, v0: Value, v1: Value, v2: Value)
    requires Eval(fuel, h, x0, e) == (h, Normal(v0))
    requires Eval(fuel, h, x1, e) == (h, Normal(v1))
    requires Eval(fuel, h, x2, e) == (h, Normal(v2))
    ensures EvalArgs(fuel, h, [x0, x1, x2], e, acc) == (h, Normal(List(acc + [v0, v1, v2])))
  {
    assert [x0, x1, x2][1..] == [x1, x2] && [x1, x2][1..] == [x2] && [x2][1..] == [];
    assert acc + [v0] + [v1] + [v2] == acc + [v0, v1, v2];
    assert EvalArgs(fuel, h, [x0, x1, x2], e, acc) == EvalArgs(fuel, h, [x1, x2], e, acc + [v0]);
    assert EvalArgs(fuel, h, [x1, x2], e, acc + [v0]) == EvalArgs(fuel, h, [x2], e, acc + [v0] + [v1]);
    assert EvalArgs(fuel, h, [x2], e, acc + [v0] + [v1]) == EvalArgs(fuel, h, [], e, acc + [v0, v1, v2]);
  }

  /** An application whose items evaluate, without changing the heap, to a primitive and its arguments. */
  lemma PrimApp(fuel: nat, h: Heap, xs: seq<Value>, e: nat, p: PrimOp, args: seq<Value>)
    requires fuel >= 2 && xs != [] && xs[0].Sym? && xs[0].name !in LispEvalExamples.SpecialForms && !p.CallCC?
    requires EvalArgs(fuel - 1, h, xs, e, []) == (h, Normal(List([Prim(p)] + args)))
    ensures Eval(fuel, h, List(xs), e) == (h, ApplyPrim(p, args))
  {
    LispEvalExamples.EvalApplication(fuel, h, xs, e, h, Prim(p), args);
  }

  /** What a symbol or a constant answers: its binding, or itself. */
  function AtomValue(fs: seq<Frame>, e: nat, x: Value): Outcome
    requires !x.List?
  {
    if x.Sym? then Lookup(fs, e, x.name) else Normal(x)
  }

  lemma EvalAtom(fuel: nat, h: Heap, x: Value, e: nat)
    requires fuel >= 1 && !x.List?
    ensures Eval(fuel, h, x, e) == (h, AtomValue(h.frames, e, x))
  {
  }

  /** `(f a b)` for a primitive f and two items that answer without changing the heap. */
  lemma PrimCall2(fuel: nat, h: Heap, e: nat, f: string, a: Value, b: Value, p: PrimOp, va: Value, vb: Value)
    requires fuel >= 2 && f !in LispEvalExamples.SpecialForms && !p.CallCC?
    requires Lookup(h.frames, e, f) == Normal(Prim(p))
    requires Eval(fuel - 1, h, a, e) == (h, Normal(va)) && Eval(fuel - 1, h, b, e) == (h, Normal(vb))
    ensures Eval(fuel, h, List([Sym(f), a, b]), e) == (h, ApplyPrim(p, [va, vb]))
  {
    EvalAtom(fuel - 1, h, Sym(f), e);
    Args3(fuel - 1, h, e, Sym(f), a, b, Prim(p), va, vb);
    PrimApp(fuel, h, [Sym(f), a, b], e, p, [va, vb]);
  }

  /** The same, for two symbols or constants. */
  lemma PrimAtoms2(fuel: nat, h: Heap, e: nat, f: string, a: Value, b: Value, p: PrimOp, va: Value, vb: Value)
    requires fuel >= 2 && f !in LispEvalExamples.SpecialForms && !p.CallCC?
    requires Lookup(h.frames, e, f) == Normal(Prim(p))
    requires !a.List? && AtomValue(h.frames, e, a) == Normal(va)
    requires !b.List? && AtomValue(h.frames, e, b) == Normal(vb)
    ensures Eval(fuel, h, List([Sym(f), a, b]), e) == (h, ApplyPrim(p, [va, vb]))
  {
    EvalAtom(fuel - 1, h, a, e);
    EvalAtom(fuel - 1, h, b, e);
    PrimCall2(fuel, h, e, f, a, b, p, va, vb);
  }

  lemma GtNums(a: int, b: int)
    ensures ApplyPrim(Gt, [Num(a), Num(b)]) == Normal(Bool(a > b))
  {
  }

  lemma AddNums(a: int, b: int)
    ensures ApplyPrim(Add, [Num(a), Num(b)]) == Normal(Num(a + b))
  {
  }

  lemma MulNums(a: int, b: int)
    ensures ApplyPrim(Mul, [Num(a), Num(b)]) == Normal(Num(a * b))
  {
  }

  /** The test of the `if`: `(> start end)`. */
  lemma EvalTest(fuel: nat, h: Heap, g: nat, d: nat, e: nat, k: int, n: int, acc: int)
    requires fuel >= 2 && Ready(h.frames, g, d, k, n) && CallFrame(h.frames, d, e, acc)
    ensures Eval(fuel, h, List([S(">"), S("start"), S("end")]), e) == (h, Normal(Bool(k > n)))
  {
    LookupsInRange(h.frames, g, d, e, k, n, acc);
    LookupPrim(h.frames, g, d, e, k, n, acc, ">");
    PrimAtoms2(fuel, h, e, ">", S("start"), S("end"), Gt, Num(k), Num(n));
    GtNums(k, n);
  }

  /** The first argument of the recursive call: `(+ start 1)`. */
  lemma EvalSucc(fuel: nat, h: Heap, g: nat, d: nat, e: nat, k: int, n: int, acc: int)
    requires fuel >= 2 && Ready(h.frames, g, d, k, n) && CallFrame(h.frames, d, e, acc)
    ensures Eval(fuel, h, AccCall()[1], e) == (h, Normal(Num(k + 1)))
  {
    LookupsInRange(h.frames, g, d, e, k, n, acc);
    LookupPrim(h.frames, g, d, e, k, n, acc, "+");
    PrimAtoms2(fuel, h, e, "+", S("start"), Num(1), Add, Num(k), Num(1));
    AddNums(k, 1);
  }

  /** `(* start start)`. */
  lemma EvalSquare(fuel: nat, h: Heap, g: nat, d: nat, e: nat, k: int, n: int, acc: int)
    requires fuel >= 2 && Ready(h.frames, g, d, k, n) && CallFrame(h.frames, d, e, acc)
    ensures Eval(fuel, h, List([S("*"), S("start"), S("start")]), e) == (h, Normal(Num(k * k)))
  {
    LookupsInRange(h.frames, g, d, e, k, n, acc);
    LookupPrim(h.frames, g, d, e, k, n, acc, "*");
    PrimAtoms2(fuel, h, e, "*", S("start"), S("start"), Mul, Num(k), Num(k));
    MulNums(k, k);
  }

  /** The third argument of the recursive call: `(+ (* start start) acc)`. */
  lemma EvalAccum(fuel: nat, h: Heap, g: nat, d: nat, e: nat, k: int, n: int, acc: int)
    requires fuel >= 3 && Ready(h.frames, g, d, k, n) && CallFrame(h.frames, d, e, acc)
    ensures Eval(fuel, h, AccCall()[3], e) == (h, Normal(Num(k * k + acc)))
  {
    var sq := List([S("*"), S("start"), S("start")]);
    LookupsInRange(h.frames, g, d, e, k, n, acc);
    LookupPrim(h.frames, g, d, e, k, n, acc, "+");
    EvalSquare(fuel - 1, h, g, d, e, k, n, acc);
    EvalAtom(fuel - 1, h, S("acc"), e);
    PrimCall2(fuel, h, e, "+", sq, S("acc"), Add, Num(k * k), Num(acc));
    AddNums(k * k, acc);
  }

  /** The items of the recursive call evaluate, left to right, to the procedure and the next arguments. */
  lemma EvalCallArgs(fuel: nat, h: Heap, g: nat, d: nat, e: nat, k: int, n: int, acc: int)
    requires fuel >= 3 && Ready(h.frames, g, d, k, n) && CallFrame(h.frames, d, e, acc)
    ensures EvalArgs(fuel, h, AccCall(), e, []) ==
            (h, Normal(List([AccProc(d)] + [Num(k + 1), Num(n), Num(k * k + acc)])))
  {
    var xs := AccCall();
    LookupsInRange(h.frames, g, d, e, k, n, acc);
    EvalAtom(fuel, h, xs[0], e);
    EvalAtom(fuel, h, xs[2], e);
    EvalSucc(fuel, h, g, d, e, k, n, acc);
    EvalAccum(fuel, h, g, d, e, k, n, acc);
    Args4(fuel, h, e, xs[0], xs[1], xs[2], xs[3], AccProc(d), Num(k + 1), Num(n), Num(k * k + acc));
    assert [xs[0], xs[1], xs[2], xs[3]] == xs;
  }

  /** `setAt` from a frame appended over d, for a name d holds: the write goes to d. */
  lemma SetAbove(fs: seq<Frame>, x: Frame, d: nat, name: string, v: Value)
    requires d < |fs| && x.outer == Some(d) && Holds(fs[d], name)
    ensures SetAtF(fs + [x], |fs|, name, v) == fs[d := Put(fs[d], name, v)] + [x]
  {
    assert Outer(fs + [x], |fs|) == Some(d);
    assert (fs + [x])[d] == fs[d];
    assert (fs + [x])[d := Put(fs[d], name, v)] == fs[d := Put(fs[d], name, v)] + [x];
  }

  /** `setAt` from a frame appended over d, for a name d does not hold: the write stays in the new frame. */
  lemma SetInLast(fs: seq<Frame>, x: Frame, d: nat, name: string, v: Value)
    requires d < |fs| && x.outer == Some(d) && !Holds(fs[d], name)
    ensures SetAtF(fs + [x], |fs|, name, v) == fs + [Put(x, name, v)]
  {
    assert Outer(fs + [x], |fs|) == Some(d);
    assert (fs + [x])[d] == fs[d] && (fs + [x])[|fs|] == x;
    assert (fs + [x])[|fs| := Put(x, name, v)] == fs + [Put(x, name, v)];
  }

  /** `update` with two pairs is two `setAt`s. */
  lemma Update2(fs: seq<Frame>, e: nat, a: string, b: string, u: Value, v: Value)
    ensures UpdateF(fs, e, [a, b], [u, v]) == SetAtF(SetAtF(fs, e, a, u), e, b, v)
  {
    assert [a, b][1..] == [b] && [u, v][1..] == [v] && [b][1..] == [] && [v][1..] == [];
    var f1 := SetAtF(fs, e, a, u);
    assert UpdateF(fs, e, [a, b], [u, v]) == UpdateF(f1, e, [b], [v]);
    assert UpdateF(f1, e, [b], [v]) == UpdateF(SetAtF(f1, e, b, v), e, [], []);
  }

  /** `update` with three pairs is three `setAt`s. */
  lemma Update3(fs: seq<Frame>, e: nat, a: string, b: string, c: string, u: Value, v: Value, w: Value)
    ensures UpdateF(fs, e, [a, b, c], [u, v, w]) == SetAtF(SetAtF(SetAtF(fs, e, a, u), e, b, v), e, c, w)
  {
    assert [a, b, c][1..] == [b, c] && [u, v, w][1..] == [v, w];
    Update2(SetAtF(fs, e, a, u), e, b, c, v, w);
  }

  /** Two writes to the same place: the second wins. */
  lemma UpdateTwice(fs: seq<Frame>, i: nat, a: Frame, b: Frame)
    requires i < |fs|
    ensures fs[i := a][i := b] == fs[i := b]
  {
  }

  /** The arena after a recursive call's frame is built: d holds the new `start` and `end`, the new frame `acc`. */
  function Advance(fs: seq<Frame>, d: nat, k: int, n: int, acc: int): seq<Frame>
    requires d < |fs|
  {
    fs[d := Put(Put(fs[d], "start", Num(k)), "end", Num(n))] + [Frame(map["acc" := Num(acc)], Some(d))]
  }

  /**
   * The frame of a recursive call: `start` and `end` land in d, since d
   * already holds them, and the new frame binds `acc` alone.
   */
  lemma NextFrame(fs: seq<Frame>, g: nat, d: nat, k: int, n: int, k': int, acc': int)
    requires Ready(fs, g, d, k, n)
    ensures NewFrame(fs, AccParms(), [Num(k'), Num(n), Num(acc')], Some(d)) == Ok(Advance(fs, d, k', n, acc'))
  {
    var names := ["start", "end", "acc"];
    var vals := [Num(k'), Num(n), Num(acc')];
    assert AllSymbols(AccParms().items);
    assert Names(AccParms().items) == names;
    LispEnvProps.CombinedDistinct(names, vals);
    var x := Frame(map[], Some(d));
    Update3(fs + [x], |fs|, "start", "end", "acc", Num(k'), Num(n), Num(acc'));
    var d1 := Put(fs[d], "start", Num(k'));
    var d2 := Put(d1, "end", Num(n));
    SetAbove(fs, x, d, "start", Num(k'));
    SetAbove(fs[d := d1], x, d, "end", Num(n));
    UpdateTwice(fs, d, d1, d2);
    SetInLast(fs[d := d2], x, d, "acc", Num(acc'));
  }

  /** After the frame is built, d describes the next call and the new frame is its call frame. */
  lemma AdvanceReady(fs: seq<Frame>, g: nat, d: nat, k: int, n: int, k': int, acc': int)
    requires Ready(fs, g, d, k, n)
    ensures var fs' := Advance(fs, d, k', n, acc');
      |fs'| == |fs| + 1 && Ready(fs', g, d, k', n) && CallFrame(fs', d, |fs|, acc')
  {
    var fs' := Advance(fs, d, k', n, acc');
    assert fs'[g] == fs[g];
    assert fs'[d].vals == DFrame(g, d, k', n).vals;
  }

  // ---------------------------------------------------------------- the loop

  /** With the range used up, the body answers `acc`. */
  lemma AccDone(fuel: nat, h: Heap, g: nat, d: nat, e: nat, k: int, n: int, acc: int)
    requires Ready(h.frames, g, d, k, n) && CallFrame(h.frames, d, e, acc)
    requires fuel >= 3 && k > n
    ensures Eval(fuel, h, AccBody(), e) == (h, Normal(Num(acc)))
  {
    var test := List([S(">"), S("start"), S("end")]);
    EvalTest(fuel - 1, h, g, d, e, k, n, acc);
    LispEvalProps.EvalIfChoosesBranch(fuel, h, test, S("acc"), List(AccCall()), Nil, e);
    LookupsInRange(h.frames, g, d, e, k, n, acc);
    EvalAtom(fuel - 1, h, S("acc"), e);
  }

  /**
   * An application whose items evaluate to a procedure and its arguments
   * without changing the heap continues with the procedure's body in the
   * frame `new Env` builds.
   */
  lemma ApplyClosure(fuel: nat, h: Heap, items: seq<Value>, env: nat, p: Value, args: seq<Value>, fs: seq<Frame>)
    requires fuel >= 1 && LispEvalProps.IsApplication(items) && p.Closure?
    requires EvalArgs(fuel - 1, h, items, env, []) == (h, Normal(List([p] + args)))
    requires NewFrame(h.frames, p.parms, args, Some(p.env)) == Ok(fs)
    ensures Eval(fuel, h, List(items), env) == Eval(fuel - 1, h.(frames := fs), p.body, |h.frames|)
  {
    assert ([p] + args)[0] == p && ([p] + args)[1..] == args;
    LispEvalProps.EvalAppliesProcedure(fuel, h, items, env);
  }

  /** The recursive call's items evaluate to the procedure and its arguments, which build the next frame. */
  lemma CallPrepared(fuel: nat, h: Heap, g: nat, d: nat, e: nat, k: int, n: int, acc: int)
    requires Ready(h.frames, g, d, k, n) && CallFrame(h.frames, d, e, acc)
    requires fuel >= 3
    ensures EvalArgs(fuel, h, AccCall(), e, []) ==
            (h, Normal(List([AccProc(d)] + [Num(k + 1), Num(n), Num(k * k + acc)])))
    ensures NewFrame(h.frames, AccParms(), [Num(k + 1), Num(n), Num(k * k + acc)], Some(d)) ==
            Ok(Advance(h.frames, d, k + 1, n, k * k + acc))
  {
    EvalCallArgs(fuel, h, g, d, e, k, n, acc);
    NextFrame(h.frames, g, d, k, n, k + 1, k * k + acc);
  }

  /** The recursive call continues with the body in the next call frame, without a new `_eval`. */
  lemma TailCall(fuel: nat, h: Heap, g: nat, d: nat, e: nat, k: int, n: int, acc: int)
    requires Ready(h.frames, g, d, k, n) && CallFrame(h.frames, d, e, acc)
    requires fuel >= 4
    ensures Eval(fuel, h, List(AccCall()), e) ==
            Eval(fuel - 1, h.(frames := Advance(h.frames, d, k + 1, n, k * k + acc)), AccBody(), |h.frames|)
  {
    CallPrepared(fuel - 1, h, g, d, e, k, n, acc);
    assert LispEvalProps.IsApplication(AccCall());
    ApplyClosure(fuel, h, AccCall(), e, AccProc(d), [Num(k + 1), Num(n), Num(k * k + acc)],
                 Advance(h.frames, d, k + 1, n, k * k + acc));
  }

  /**
   * With numbers left, the body's tail call continues with the same body,
   * two steps later, in the next call frame: the loop of `_eval`.
   */
  lemma AccStep(fuel: nat, h: Heap, g: nat, d: nat, e: nat, k: int, n: int, acc: int)
    requires Ready(h.frames, g, d, k, n) && CallFrame(h.frames, d, e, acc)
    requires fuel >= 5 && k <= n
    ensures Eval(fuel, h, AccBody(), e) ==
            Eval(fuel - 2, h.(frames := Advance(h.frames, d, k + 1, n, k * k + acc)), AccBody(), |h.frames|)
  {
    var test := List([S(">"), S("start"), S("end")]);
    EvalTest(fuel - 1, h, g, d, e, k, n, acc);
    LispEvalProps.EvalIfChoosesBranch(fuel, h, test, S("acc"), List(AccCall()), Nil, e);
    TailCall(fuel - 1, h, g, d, e, k, n, acc);
  }

  /**
   * `sumsq-acc` from a call frame with `start` = k, `end` = n and
   * `acc` = acc answers acc plus the squares from k to n, given two steps
   * of fuel per call and a few more.
   */
  lemma {:induction false} AccLoop(fuel: nat, h: Heap, g: nat, d: nat, e: nat, k: int, n: int, acc: int)
    requires Ready(h.frames, g, d, k, n) && CallFrame(h.frames, d, e, acc)
    requires fuel >= 2 * Count(k, n) + 6
    ensures Eval(fuel, h, AccBody(), e).1 == Normal(Num(acc + SumSquares(k, n)))
    decreases Count(k, n)
  {
    if k > n {
      AccDone(fuel, h, g, d, e, k, n, acc);
    } else {
      AccStep(fuel, h, g, d, e, k, n, acc);
      AdvanceReady(h.frames, g, d, k, n, k + 1, k * k + acc);
      var h' := h.(frames := Advance(h.frames, d, k + 1, n, k * k + acc));
      AccLoop(fuel - 2, h', g, d, |h.frames|, k + 1, n, k * k + acc);
    }
  }

  // ---------------------------------------------------------------- the whole test

  /** `(define (sum-squares-range start end) ...)` as the expander leaves it. */
  function DefineRange(): Value {
    List([S("define"), S("sum-squares-range"), List([S("lambda"), List([S("start"), S("end")]), RangeBody()])])
  }

  /** `(sum-squares-range k n)`. */
  function RangeCallOf(k: int, n: int): seq<Value> { [S("sum-squares-range"), Num(k), Num(n)] }

  /** The global frame g binds the primitives and none of the names the two procedures bind. */
  predicate Fresh(fs: seq<Frame>, g: nat) {
    g < |fs| && HasPrims(fs[g]) && fs[g].outer == None &&
    !Holds(fs[g], "start") && !Holds(fs[g], "end") && !Holds(fs[g], "sumsq-acc") && !Holds(fs[g], "acc")
  }

  /** The global frame after the definition: it also binds `sum-squares-range`. */
  predicate Defined(fs: seq<Frame>, g: nat) {
    Fresh(fs, g) && "sum-squares-range" in fs[g].vals && fs[g].vals["sum-squares-range"] == RangeProc(g)
  }

  /** The definition binds `sum-squares-range` in the global frame and answers `None`. */
  lemma DefineRangeBinds(fuel: nat, h: Heap, g: nat)
    requires fuel >= 2 && Fresh(h.frames, g)
    ensures var fs := h.frames[g := Put(h.frames[g], "sum-squares-range", RangeProc(g))];
      Eval(fuel, h, DefineRange(), g) == (h.(frames := fs), Normal(NoneValue)) && Defined(fs, g)
  {
    var fs := h.frames[g := Put(h.frames[g], "sum-squares-range", RangeProc(g))];
    assert Eval(fuel - 1, h, DefineRange().items[2], g) == (h, Normal(RangeProc(g)));
    assert Outer(h.frames, g) == None;
    assert SetAtF(h.frames, g, "sum-squares-range", RangeProc(g)) == fs;
    assert fs[g].vals == h.frames[g].vals["sum-squares-range" := RangeProc(g)];
  }

  /** The arena once `sum-squares-range` is entered: its frame binds `start` and `end`, over g. */
  function Entered(fs: seq<Frame>, g: nat, k: int, n: int): seq<Frame> {
    fs + [Frame(map["start" := Num(k), "end" := Num(n)], Some(g))]
  }

  /** The arena once the inner definition has run: the frame also binds `sumsq-acc`. */
  function WithAcc(fs: seq<Frame>, g: nat, k: int, n: int): seq<Frame> {
    fs + [DFrame(g, |fs|, k, n)]
  }

  /** The frame of a `sum-squares-range` call: `start` and `end`, over the global frame. */
  lemma RangeFrame(fs: seq<Frame>, g: nat, k: int, n: int)
    requires Defined(fs, g)
    ensures NewFrame(fs, List([S("start"), S("end")]), [Num(k), Num(n)], Some(g)) == Ok(Entered(fs, g, k, n))
  {
    var names := ["start", "end"];
    var vals := [Num(k), Num(n)];
    assert AllSymbols(List([S("start"), S("end")]).items);
    assert Names(List([S("start"), S("end")]).items) == names;
    LispEnvProps.CombinedDistinct(names, vals);
    var x0 := Frame(map[], Some(g));
    var x1 := Put(x0, "start", Num(k));
    Update2(fs + [x0], |fs|, "start", "end", Num(k), Num(n));
    SetInLast(fs, x0, g, "start", Num(k));
    SetInLast(fs, x1, g, "end", Num(n));
  }

  /** The items of `(sum-squares-range k n)` evaluate to the procedure and k and n. */
  lemma RangeArgs(fuel: nat, h: Heap, g: nat, k: int, n: int)
    requires fuel >= 1 && Defined(h.frames, g)
    ensures EvalArgs(fuel, h, RangeCallOf(k, n), g, []) == (h, Normal(List([RangeProc(g)] + [Num(k), Num(n)])))
  {
    assert Find(h.frames, g, "sum-squares-range") == Ok(g);
    EvalAtom(fuel, h, S("sum-squares-range"), g);
    EvalAtom(fuel, h, Num(k), g);
    EvalAtom(fuel, h, Num(n), g);
    Args3(fuel, h, g, S("sum-squares-range"), Num(k), Num(n), RangeProc(g), Num(k), Num(n));
  }

  /** The call `(sum-squares-range k n)` continues with the body in the new frame. */
  lemma RangeApplies(fuel: nat, h: Heap, g: nat, k: int, n: int)
    requires fuel >= 2 && Defined(h.frames, g)
    ensures Eval(fuel, h, List(RangeCallOf(k, n)), g) ==
            Eval(fuel - 1, h.(frames := Entered(h.frames, g, k, n)),
                 RangeBody(), |h.frames|)
  {
    RangeArgs(fuel - 1, h, g, k, n);
    RangeFrame(h.frames, g, k, n);
    assert LispEvalProps.IsApplication(RangeCallOf(k, n));
    ApplyClosure(fuel, h, RangeCallOf(k, n), g, RangeProc(g), [Num(k), Num(n)], Entered(h.frames, g, k, n));
  }

  /** The inner definition binds `sumsq-acc` in the call's frame d and answers `None`. */
  lemma InnerDefine(fuel: nat, h: Heap, g: nat, k: int, n: int)
    requires fuel >= 2 && Defined(h.frames, g)
    ensures Eval(fuel, h.(frames := Entered(h.frames, g, k, n)), RangeDefine(), |h.frames|) ==
            (h.(frames := WithAcc(h.frames, g, k, n)), Normal(NoneValue))
  {
    var d := |h.frames|;
    var fs1 := Entered(h.frames, g, k, n);
    var h1 := h.(frames := fs1);
    assert Eval(fuel - 1, h1, RangeDefine().items[2], d) == (h1, Normal(AccProc(d)));
    SetInLast(h.frames, fs1[d], g, "sumsq-acc", AccProc(d));
  }

  /** After the inner definition, the call's frame is `Ready` for the loop. */
  lemma InnerReady(fs: seq<Frame>, g: nat, k: int, n: int)
    requires Defined(fs, g)
    ensures Ready(WithAcc(fs, g, k, n), g, |fs|, k, n)
  {
    assert WithAcc(fs, g, k, n)[g] == fs[g];
  }

  /** The items of `(sumsq-acc start end 0)` evaluate in frame d to the procedure, k, n and 0. */
  lemma InnerArgs(fuel: nat, h: Heap, g: nat, d: nat, k: int, n: int)
    requires fuel >= 1 && Ready(h.frames, g, d, k, n)
    ensures EvalArgs(fuel, h, RangeCall(), d, []) == (h, Normal(List([AccProc(d)] + [Num(k), Num(n), Num(0)])))
  {
    assert Find(h.frames, d, "sumsq-acc") == Ok(d);
    assert Find(h.frames, d, "start") == Ok(d) && Find(h.frames, d, "end") == Ok(d);
    EvalAtom(fuel, h, S("sumsq-acc"), d);
    EvalAtom(fuel, h, S("start"), d);
    EvalAtom(fuel, h, S("end"), d);
    EvalAtom(fuel, h, Num(0), d);
    Args4(fuel, h, d, S("sumsq-acc"), S("start"), S("end"), Num(0), AccProc(d), Num(k), Num(n), Num(0));
  }

  /** The inner call `(sumsq-acc start end 0)` from frame d continues with the loop's body. */
  lemma InnerCall(fuel: nat, h: Heap, g: nat, d: nat, k: int, n: int)
    requires fuel >= 2 && Ready(h.frames, g, d, k, n)
    ensures Eval(fuel, h, List(RangeCall()), d) ==
            Eval(fuel - 1, h.(frames := Advance(h.frames, d, k, n, 0)), AccBody(), |h.frames|)
  {
    InnerArgs(fuel - 1, h, g, d, k, n);
    NextFrame(h.frames, g, d, k, n, k, 0);
    assert LispEvalProps.IsApplication(RangeCall());
    ApplyClosure(fuel, h, RangeCall(), d, AccProc(d), [Num(k), Num(n), Num(0)], Advance(h.frames, d, k, n, 0));
  }

  /** `(begin a b)`: when a answers normally, the outcome is b's, in the state a leaves. */
  lemma BeginTwo(fuel: nat, h: Heap, a: Value, b: Value, env: nat)
    requires fuel >= 1
    ensures var (h1, o) := Eval(fuel - 1, h, a, env);
      o.Normal? ==> Eval(fuel, h, List([S("begin"), a, b]), env).1 == Eval(fuel - 1, h1, b, env).1
  {
    var (h1, o) := Eval(fuel - 1, h, a, env);
    assert [S("begin"), a, b][1..] == [a, b] && [a, b][1..] == [b] && [b][1..] == [];
    assert Eval(fuel, h, List([S("begin"), a, b]), env) == EvalSeq(fuel - 1, h, [a, b], env, Nil);
    if o.Normal? {
      assert EvalSeq(fuel - 1, h, [a, b], env, Nil) == EvalSeq(fuel - 1, h1, [b], env, o.v);
      var (h2, o2) := Eval(fuel - 1, h1, b, env);
      if o2.Normal? {
        assert EvalSeq(fuel - 1, h1, [b], env, o.v) == EvalSeq(fuel - 1, h2, [], env, o2.v);
      }
    }
  }

  /** The body of `sum-squares-range`: the definition, then the call whose value `begin` answers. */
  lemma RangeBodyRuns(fuel: nat, h: Heap, g: nat, k: int, n: int)
    requires fuel >= 2 * Count(k, n) + 9 && Defined(h.frames, g)
    ensures Eval(fuel, h.(frames := Entered(h.frames, g, k, n)),
                 RangeBody(), |h.frames|).1 == Normal(Num(SumSquares(k, n)))
  {
    var d := |h.frames|;
    var h1 := h.(frames := Entered(h.frames, g, k, n));
    var fs := WithAcc(h.frames, g, k, n);
    var h2 := h.(frames := fs);
    var f := fuel - 1;
    InnerDefine(f, h, g, k, n);
    InnerReady(h.frames, g, k, n);
    BeginTwo(fuel, h1, RangeDefine(), List(RangeCall()), d);
    InnerCall(f, h2, g, d, k, n);
    AdvanceReady(fs, g, d, k, n, k, 0);
    AccLoop(f - 1, h2.(frames := Advance(fs, d, k, n, 0)), g, d, |fs|, k, n, 0);
  }

  /**
   * The test of tests-lisp.php:75-79 in any global frame that binds the
   * primitives and none of the procedures' names: after the definition,
   * `(sum-squares-range k n)` answers the sum of the squares from k to n,
   * with two steps of fuel per number in the range and a constant more.
   */
  lemma SumSquaresRange(fuel: nat, h: Heap, g: nat, k: int, n: int)
    requires fuel >= 2 * Count(k, n) + 10 && Fresh(h.frames, g)
    ensures var (h1, o) := Eval(fuel, h, DefineRange(), g);
      o == Normal(NoneValue) && Eval(fuel, h1, List(RangeCallOf(k, n)), g).1 == Normal(Num(SumSquares(k, n)))
  {
    DefineRangeBinds(fuel, h, g);
    var h1 := h.(frames := h.frames[g := Put(h.frames[g], "sum-squares-range", RangeProc(g))]);
    RangeApplies(fuel, h1, g, k, n);
    RangeBodyRuns(fuel - 1, h1, g, k, n);
  }

  /**
   * From 1 to any n: after the definition, `(sum-squares-range 1 n)`
   * answers n(n+1)(2n+1)/6 with 2n + 10 steps of fuel.
   */
  lemma SumSquaresUpTo(h: Heap, g: nat, n: nat)
    requires Fresh(h.frames, g)
    ensures var (h1, o) := Eval(2 * n + 10, h, DefineRange(), g);
      o == Normal(NoneValue) && Eval(2 * n + 10, h1, List(RangeCallOf(1, n)), g).1 == Normal(Num(Six(n) / 6))
  {
    SumSquaresRange(2 * n + 10, h, g, 1, n);
    SumSquaresClosed(1, n);
  }

  /** `(sum-squares-range 1 3000)` gives 9004500500, with a step budget linear in the range. */
  lemma SumSquaresTest(h: Heap, g: nat)
    requires Fresh(h.frames, g)
    ensures var (h1, o) := Eval(6010, h, DefineRange(), g);
      o == Normal(NoneValue) && Eval(6010, h1, List(RangeCallOf(1, 3000)), g).1 == Normal(Num(9004500500))
  {
    SumSquaresUpTo(h, g, 3000);
    assert Six(3000) / 6 == 9004500500;
  }

  /** The global frame `global_env()` builds binds the primitives the test calls. */
  lemma InitialHasPrims()
    ensures HasPrims(InitialHeap().frames[GlobalEnv])
  {
    var t := PrimitiveTable();
    assert t[">"] == Prim(Gt);
    assert t["+"] == Prim(Add);
    assert t["*"] == Prim(Mul);
  }

  /** It binds none of the names the two procedures bind. */
  lemma InitialUnbound()
    ensures var f := InitialHeap().frames[GlobalEnv];
      !Holds(f, "start") && !Holds(f, "end") && !Holds(f, "sumsq-acc") && !Holds(f, "acc")
  {
    var t := PrimitiveTable();
    assert "start" !in t && "end" !in t && "sumsq-acc" !in t && "acc" !in t;
  }

  /** The global frame `global_env()` builds meets the assumptions of the test. */
  lemma InitialIsFresh()
    ensures Fresh(InitialHeap().frames, GlobalEnv)
  {
    InitialHasPrims();
    InitialUnbound();
  }
}
