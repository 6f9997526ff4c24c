/**
 * What `expand` in lisp.php leaves for `_eval`: special forms of the shape
 * `_eval` takes them apart by, and no macro call, quasiquote or
 * `define-macro` in a position that is evaluated. The guarantee holds for
 * input that does not reach the quasiquote branch, whose unquoted parts are
 * returned unexpanded.
 */
module LispCore {
  import opened LispValues
  import opened LispEnv
  import opened LispEval
  import opened LispQuasi
  import opened LispExpand

  /** A `lambda` parameter list: a list of symbols, or one symbol for all arguments. */
  predicate Params(v: Value) {
    (v.List? && AllSymbols(v.items)) || v.Sym?
  }

  /**
   * A core form: `(quote d)`, `(if c a b)`, `(set! v e)`, `(define v e)`,
   * `(lambda params e)`, `(begin e ...)` with at least one expression, or an
   * application whose head is none of `define-macro`, `quasiquote` and `let`;
   * an atom other than the empty string.
   */
  predicate Core(x: Value) {
    match x
    case List(items) =>
      items != [] &&
      var head := items[0];
      if IsSym(head, "quote") then |items| == 2
      else if IsSym(head, "if") then |items| == 4 && forall i :: 1 <= i < |items| ==> Core(items[i])
      else if IsSym(head, "set!") || IsSym(head, "define") then |items| == 3 && items[1].Sym? && Core(items[2])
      else if IsSym(head, "lambda") then |items| == 3 && Params(items[1]) && Core(items[2])
      else if IsSym(head, "begin") then |items| >= 2 && forall i :: 1 <= i < |items| ==> Core(items[i])
      else
        !IsSym(head, "define-macro") && !IsSym(head, "quasiquote") && !IsSym(head, "let") &&
        forall i :: 0 <= i < |items| ==> Core(items[i])
    case Str(t) => t != ""
    case _ => true
  }

  /**
   * Input that never reaches the quasiquote or `define-macro` branch of
   * `expand`: no such form in a position that is expanded. Quoted data and
   * `lambda` parameters are not expanded; in a `let`, the body and the value
   * of each binding are.
   */
  predicate Plain(x: Value) {
    match x
    case List(items) =>
      if items == [] then true
      else
        var head := items[0];
        if IsSym(head, "quote") then true
        else if IsSym(head, "quasiquote") || IsSym(head, "define-macro") then false
        else if IsSym(head, "lambda") then forall i :: 2 <= i < |items| ==> Plain(items[i])
        else if IsSym(head, "let") then
          (forall i :: 2 <= i < |items| ==> Plain(items[i])) &&
          (|items| >= 2 && items[1].List? ==>
            forall j :: 0 <= j < |items[1].items| ==>
              IsBinding(items[1].items[j]) ==> Plain(items[1].items[j].items[1]))
        else forall i :: 0 <= i < |items| ==> Plain(items[i])
    case _ => true
  }

  /** Core forms are themselves plain input, so expanding them again is safe. */
  lemma {:induction false} CorePlain(x: Value)
    requires Core(x)
    ensures Plain(x)
  {
    if x.List? {
      var items := x.items;
      forall i | 0 <= i < |items| && Core(items[i]) ensures Plain(items[i]) {
        CorePlain(items[i]);
      }
    }
  }

  /** v is what expanding x may give: a core form; x itself for an atom; no symbol for a list. */
  predicate Expanded(x: Value, v: Value) {
    Core(v) && (x.List? ==> !v.Sym?) && (!x.List? ==> v == x)
  }

  /**
   * With only the built-in `let` in the macro table, expanding plain input
   * leaves the table alone and, when it succeeds, gives a core form.
   */
  lemma {:induction false} ExpandOut(fuel: nat, s: State, x: Value, top: bool)
    requires s.m == InitialMacros() && Plain(x)
    ensures Expand(fuel, s, x, top).0.m == s.m
    ensures Expand(fuel, s, x, top).1.Normal? ==> Expanded(x, Expand(fuel, s, x, top).1.v)
    decreases fuel, 0, 0
  {
    if fuel > 0 && x.List? && x.items != [] {
      ListOut(fuel, s, x.items, top);
    }
  }

  /** `expand` on a plain non-empty list: quotation, `if`, `set!` and `define`. */
  lemma {:induction false} ListOut(fuel: nat, s: State, items: seq<Value>, top: bool)
    requires fuel >= 1 && items != [] && s.m == InitialMacros() && Plain(List(items))
    ensures Expand(fuel, s, List(items), top).0.m == s.m
    ensures Expand(fuel, s, List(items), top).1.Normal? ==> Expanded(List(items), Expand(fuel, s, List(items), top).1.v)
    decreases fuel - 1, 5, 0
  {
    var head := items[0];
    if IsSym(head, "quote") {
    } else if IsSym(head, "if") {
      if |items| == 3 || |items| == 4 {
        ExpandIfOut(fuel, s, items, top);
      }
    } else if IsSym(head, "set!") {
      SetOut(fuel, s, items, top);
    } else if IsSym(head, "define") || IsSym(head, "define-macro") {
      DefineOut(fuel - 1, s, items, top);
    } else {
      FormOut(fuel, s, items, top);
    }
  }

  /** `expand` on a plain non-empty list: `begin`, `lambda`, macro calls and applications. */
  lemma {:induction false} FormOut(fuel: nat, s: State, items: seq<Value>, top: bool)
    requires fuel >= 1 && items != [] && s.m == InitialMacros() && Plain(List(items))
    requires !IsSym(items[0], "quote") && !IsSym(items[0], "if") && !IsSym(items[0], "set!")
    requires !IsSym(items[0], "define") && !IsSym(items[0], "define-macro")
    ensures Expand(fuel, s, List(items), top).0.m == s.m
    ensures Expand(fuel, s, List(items), top).1.Normal? ==> Expanded(List(items), Expand(fuel, s, List(items), top).1.v)
    decreases fuel - 1, 4, 0
  {
    var head := items[0];
    if IsSym(head, "begin") {
      if |items| > 1 {
        BeginOut(fuel, s, items, top);
      }
    } else if IsSym(head, "lambda") {
      LambdaOut(fuel, s, items, top);
    } else if IsSym(head, "quasiquote") {
    } else if head.Sym? && head.name in s.m {
      MacroOut(fuel, s, items, top);
    } else {
      AppOut(fuel, s, items);
    }
  }

  /** A plain `(set! v e)` expands to `(set! v e')` with e' the core form of e. */
  lemma {:induction false} SetOut(fuel: nat, s: State, items: seq<Value>, top: bool)
    requires fuel >= 1 && items != [] && IsSym(items[0], "set!") && s.m == InitialMacros() && Plain(List(items))
    ensures Expand(fuel, s, List(items), top).0.m == s.m
    ensures Expand(fuel, s, List(items), top).1.Normal? ==> Expanded(List(items), Expand(fuel, s, List(items), top).1.v)
    decreases fuel - 1, 3, 0
  {
    if |items| == 3 && items[1].Sym? {
      ExpandOut(fuel - 1, s, items[2], false);
    }
  }

  /** A plain `lambda` expands to `(lambda params e)` with e the core form of its body, wrapped in `begin` when it has several expressions. */
  lemma {:induction false} LambdaOut(fuel: nat, s: State, items: seq<Value>, top: bool)
    requires fuel >= 1 && items != [] && IsSym(items[0], "lambda") && s.m == InitialMacros() && Plain(List(items))
    ensures Expand(fuel, s, List(items), top).0.m == s.m
    ensures Expand(fuel, s, List(items), top).1.Normal? ==> Expanded(List(items), Expand(fuel, s, List(items), top).1.v)
    decreases fuel - 1, 3, 0
  {
    if |items| >= 3 && Params(items[1]) {
      var body := if |items| == 3 then items[2] else List([Sym("begin")] + items[2..]);
      assert Plain(body) by {
        if |items| > 3 {
          var b := [Sym("begin")] + items[2..];
          forall i | 0 <= i < |b| ensures Plain(b[i]) {
            if i > 0 {
              assert b[i] == items[i + 1];
            }
          }
        }
      }
      ExpandOut(fuel - 1, s, body, false);
    }
  }

  /** Every expression of a plain `begin` expands, at the same level, to a core form. */
  lemma {:induction false} BeginOut(fuel: nat, s: State, items: seq<Value>, top: bool)
    requires fuel >= 1 && |items| > 1 && IsSym(items[0], "begin") && s.m == InitialMacros() && Plain(List(items))
    ensures Expand(fuel, s, List(items), top).0.m == s.m
    ensures Expand(fuel, s, List(items), top).1.Normal? ==> Expanded(List(items), Expand(fuel, s, List(items), top).1.v)
    decreases fuel - 1, 3, 0
  {
    assert Expand(fuel, s, List(items), top) == ExpandAll(fuel - 1, s, items, top, []);
    AllOutFresh(fuel - 1, s, items, top);
  }

  /** An application of a plain head that is no keyword and no macro expands item by item. */
  lemma {:induction false} AppOut(fuel: nat, s: State, items: seq<Value>)
    requires fuel >= 1 && items != [] && s.m == InitialMacros() && Plain(List(items))
    requires !IsSym(items[0], "quote") && !IsSym(items[0], "if") && !IsSym(items[0], "set!")
    requires !IsSym(items[0], "define") && !IsSym(items[0], "define-macro") && !IsSym(items[0], "begin")
    requires !IsSym(items[0], "lambda") && !IsSym(items[0], "quasiquote")
    requires !(items[0].Sym? && items[0].name in s.m)
    ensures forall top :: Expand(fuel, s, List(items), top) == ExpandAll(fuel - 1, s, items, false, [])
    ensures ExpandAll(fuel - 1, s, items, false, []).0.m == s.m
    ensures ExpandAll(fuel - 1, s, items, false, []).1.Normal? ==> Expanded(List(items), ExpandAll(fuel - 1, s, items, false, []).1.v)
    decreases fuel - 1, 3, 0
  {
    AllOutFresh(fuel - 1, s, items, false);
  }

  /** An `if` of three or four items expands, its missing `else` filled with `None`, to a four-item core `if`. */
  lemma {:induction false} ExpandIfOut(fuel: nat, s: State, items: seq<Value>, top: bool)
    requires fuel >= 1 && s.m == InitialMacros() && Plain(List(items))
    requires items != [] && IsSym(items[0], "if") && (|items| == 3 || |items| == 4)
    ensures Expand(fuel, s, List(items), top).0.m == s.m
    ensures Expand(fuel, s, List(items), top).1.Normal? ==> Expanded(List(items), Expand(fuel, s, List(items), top).1.v)
    decreases fuel - 1, 3, 0
  {
    var xs := if |items| == 3 then items + [NoneValue] else items;
    assert Expand(fuel, s, List(items), top) == ExpandAll(fuel - 1, s, xs, false, []);
    assert forall i :: 0 <= i < |xs| ==> xs[i] == NoneValue || xs[i] == items[i];
    AllOutFresh(fuel - 1, s, xs, false);
  }

  /** `array_map(expand, ...)` over plain input: every result is the expansion of its item. */
  lemma {:induction false} AllOut(fuel: nat, s: State, xs: seq<Value>, top: bool, acc: seq<Value>)
    requires s.m == InitialMacros() && forall i :: 0 <= i < |xs| ==> Plain(xs[i])
    ensures ExpandAll(fuel, s, xs, top, acc).0.m == s.m
    ensures var o := ExpandAll(fuel, s, xs, top, acc).1;
      o.Normal? ==> forall i :: 0 <= i < |xs| ==> Expanded(xs[i], o.v.items[|acc| + i])
    decreases fuel, 1, |xs|
  {
    if xs != [] {
      var (s1, o) := Expand(fuel, s, xs[0], top);
      ExpandOut(fuel, s, xs[0], top);
      if o.Normal? {
        AllOut(fuel, s1, xs[1..], top, acc + [o.v]);
        var r := ExpandAll(fuel, s1, xs[1..], top, acc + [o.v]);
        assert ExpandAll(fuel, s, xs, top, acc) == r;
        if r.1.Normal? {
          var w := r.1.v.items;
          assert w[..|acc| + 1] == acc + [o.v];
          assert w[|acc|] == (acc + [o.v])[|acc|];
          forall i | 0 <= i < |xs| ensures Expanded(xs[i], w[|acc| + i]) {
            if i > 0 {
              assert xs[1..][i - 1] == xs[i];
              assert |acc + [o.v]| + (i - 1) == |acc| + i;
            }
          }
        }
      }
    }
  }

  /** `array_map(expand, ...)` from scratch: the i-th result is the expansion of the i-th item. */
  lemma AllOutFresh(fuel: nat, s: State, xs: seq<Value>, top: bool)
    requires s.m == InitialMacros() && forall i :: 0 <= i < |xs| ==> Plain(xs[i])
    ensures ExpandAll(fuel, s, xs, top, []).0.m == s.m
    ensures var o := ExpandAll(fuel, s, xs, top, []).1;
      o.Normal? ==> |o.v.items| == |xs| && forall i :: 0 <= i < |xs| ==> Expanded(xs[i], o.v.items[i])
    decreases fuel, 1, |xs| + 1
  {
    AllOut(fuel, s, xs, top, []);
    var o := ExpandAll(fuel, s, xs, top, []).1;
    if o.Normal? {
      var none: seq<Value> := [];
      forall i | 0 <= i < |xs| ensures Expanded(xs[i], o.v.items[i]) {
        assert Expanded(xs[i], o.v.items[|none| + i]);
      }
    }
  }

  /** `(define (f a...) body...)` made plain stays plain when rewritten to `(define f (lambda (a...) body...))`. */
  lemma RewritePlain(items: seq<Value>)
    requires |items| >= 3 && IsSym(items[0], "define") && IsPair(items[1]) && Plain(List(items))
    ensures Plain(List([Sym("define"), items[1].items[0], List([Sym("lambda"), List(items[1].items[1..])] + items[2..])]))
  {
    var v := items[1];
    assert Plain(v);
    assert Plain(v.items[0]) by {
      if v.items[0].List? {
        assert !v.items[0].Sym?;
      }
    }
    var lam := List([Sym("lambda"), List(v.items[1..])] + items[2..]);
    assert Plain(lam) by {
      forall i | 2 <= i < |lam.items| ensures Plain(lam.items[i]) {
        assert lam.items[i] == items[i];
      }
    }
  }

  /** The `define` branch of `expand` on plain input. */
  lemma {:induction false} DefineOut(fuel: nat, s: State, items: seq<Value>, top: bool)
    requires items != [] && IsSym(items[0], "define") && s.m == InitialMacros() && Plain(List(items))
    ensures ExpandDefine(fuel, s, items, top).0.m == s.m
    ensures var o := ExpandDefine(fuel, s, items, top).1; o.Normal? ==> Core(o.v) && !o.v.Sym?
    decreases fuel, 0, 1
  {
    if fuel > 0 && |items| >= 3 {
      var v := items[1];
      if IsPair(v) {
        RewritePlain(items);
        ExpandOut(fuel - 1, s, List([Sym("define"), v.items[0], List([Sym("lambda"), List(v.items[1..])] + items[2..])]), false);
      } else if |items| == 3 && v.Sym? {
        ExpandOut(fuel - 1, s, items[2], false);
      }
    }
  }

  /** A call of the built-in `let` expands what `let` returns, which is plain again. */
  lemma {:induction false} MacroOut(fuel: nat, s: State, items: seq<Value>, top: bool)
    requires fuel >= 1 && s.m == InitialMacros() && Plain(List(items))
    requires items != [] && items[0].Sym? && items[0].name in s.m
    ensures Expand(fuel, s, List(items), top).0.m == s.m
    ensures Expand(fuel, s, List(items), top).1.Normal? ==> Expanded(List(items), Expand(fuel, s, List(items), top).1.v)
    decreases fuel - 1, 3, 0
  {
    assert items[0] == Sym("let");
    var (s1, o) := Let(fuel - 1, s, items[1..]);
    assert ApplyMacro(fuel - 1, s, s.m[items[0].name], items[1..]) == (s1, o);
    assert [Sym("let")] + items[1..] == items;
    LetOut(fuel - 1, s, items[1..]);
    if o.Normal? {
      ExpandOut(fuel - 1, s1, o.v, top);
    }
  }

  /** What `let` returns, `((lambda vars body...) vals...)`, over expanded body and values, is plain. */
  lemma LetResultPlain(vars: seq<Value>, body: seq<Value>, vals: seq<Value>)
    requires forall i :: 0 <= i < |body| ==> Core(body[i])
    requires forall i :: 0 <= i < |vals| ==> Core(vals[i])
    ensures Plain(List([List([Sym("lambda"), List(vars)] + body)] + vals))
  {
    var lam := List([Sym("lambda"), List(vars)] + body);
    assert Plain(lam) by {
      forall i | 2 <= i < |lam.items| ensures Plain(lam.items[i]) {
        assert lam.items[i] == body[i - 2];
        CorePlain(body[i - 2]);
      }
    }
    var items := [lam] + vals;
    forall i | 0 <= i < |items| ensures Plain(items[i]) {
      if i > 0 {
        assert items[i] == vals[i - 1];
        CorePlain(vals[i - 1]);
      }
    }
  }

  /** The values of the bindings of a plain `let` are plain. */
  lemma LetValuesPlain(args: seq<Value>, bs: seq<Value>)
    requires args != [] && Plain(List([Sym("let")] + args))
    requires bs == (if args[0].List? then args[0].items else []) && AllBindings(bs)
    ensures forall i :: 0 <= i < |LetValues(bs)| ==> Plain(LetValues(bs)[i])
  {
    var items := [Sym("let")] + args;
    assert items[1] == args[0];
  }

  /** The body of a plain `let` is plain. */
  lemma LetBodyPlain(args: seq<Value>)
    requires args != [] && Plain(List([Sym("let")] + args))
    ensures forall i :: 0 <= i < |args[1..]| ==> Plain(args[1..][i])
  {
    var items := [Sym("let")] + args;
    forall i | 0 <= i < |args[1..]| ensures Plain(args[1..][i]) {
      assert args[1..][i] == items[i + 2];
    }
  }

  /** The built-in `let` on plain arguments leaves the table alone and returns a plain list. */
  lemma {:induction false} LetOut(fuel: nat, s: State, args: seq<Value>)
    requires s.m == InitialMacros() && Plain(List([Sym("let")] + args))
    ensures Let(fuel, s, args).0.m == s.m
    ensures Let(fuel, s, args).1.Normal? ==> Plain(Let(fuel, s, args).1.v) && Let(fuel, s, args).1.v.List?
    decreases fuel, 2, 0
  {
    if fuel > 0 && |args| > 1 {
      var bs := if args[0].List? then args[0].items else [];
      if !args[0].Closure? && AllBindings(bs) {
        var vals := LetValues(bs);
        LetValuesPlain(args, bs);
        AllOutFresh(fuel - 1, s, vals, false);
        var (s1, o1) := ExpandAll(fuel - 1, s, vals, false, []);
        if o1.Normal? {
          var body := args[1..];
          LetBodyPlain(args);
          AllOutFresh(fuel - 1, s1, body, false);
          var (s2, o2) := ExpandAll(fuel - 1, s1, body, false, []);
          if o2.Normal? {
            LetResultPlain(LetVars(bs), o2.v.items, o1.v.items);
          }
        }
      }
    }
  }

  /** `` `,e `` expands to e itself: `expand_quasiquote` hands back the unquoted expression without expanding it. */
  lemma QuasiquoteKeepsUnquoted(fuel: nat, s: State, e: Value, top: bool)
    requires fuel >= 1
    ensures Expand(fuel, s, List([Sym("quasiquote"), List([Sym("unquote"), e])]), top) == (s, Normal(e))
  {
    assert ExpandQuasi(fuel - 1, List([Sym("unquote"), e])) == Normal(e);
  }

  /** So `` `,(let ((a 1)) a) `` expands to a `let` call, which is no core form. */
  lemma QuasiquoteLeavesLet(fuel: nat, s: State, top: bool)
    requires fuel >= 1
    ensures var e := List([Sym("let"), List([List([Sym("a"), Num(1)])]), Sym("a")]);
      Expand(fuel, s, List([Sym("quasiquote"), List([Sym("unquote"), e])]), top) == (s, Normal(e)) && !Core(e)
  {
    var e := List([Sym("let"), List([List([Sym("a"), Num(1)])]), Sym("a")]);
    QuasiquoteKeepsUnquoted(fuel, s, e, top);
  }
}
