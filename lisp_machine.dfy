/**
 * lisp.php's evaluator as the source runs it: `_eval`'s `while(true)` loop
 * reassigning the expression and the frame, the `foreach` of `begin`, the
 * `array_map` over an application, and `callcc`'s try/catch, all updating
 * one `Store` in place. Each method is proved to agree with the function
 * of the same name in `LispEval`.
 */
module LispMachine {
  import opened Basics
  import opened LispValues
  import opened LispEnv
  import opened LispEval

  /**
   * `_eval($x, $env)`. Where the source returns a nested `_eval` for the
   * branch an `if` chooses, this loop continues with that branch instead;
   * both give the same outcome, since the method is proved equal to `Eval`.
   */
  method EvalM(st: Store, fuel0: nat, x0: Value, env0: nat) returns (o: Outcome)
    modifies st
    ensures (st.Snapshot(), o) == Eval(fuel0, old(st.Snapshot()), x0, env0)
    decreases fuel0, 0, 1
  {
    var fuel: nat, x: Value, env: nat := fuel0, x0, env0;
    while true
      invariant fuel <= fuel0
      invariant Eval(fuel, st.Snapshot(), x, env) == Eval(fuel0, old(st.Snapshot()), x0, env0)
      decreases fuel
    {
      if fuel == 0 {
        return Fail(OutOfFuel);
      }
      if x.Sym? {
        return Lookup(st.frames, env, x.name);
      }
      if !x.List? {
        return Normal(x);
      }
      ghost var h := st.Snapshot();
      var items := x.items;
      assert Eval(fuel, h, x, env) == EvalForm(fuel, h, items, env);
      var head := At(items, 0);
      if IsSym(head, "quote") {
        return Normal(At(items, 1));
      } else if IsSym(head, "if") {
        var t := EvalM(st, fuel - 1, At(items, 1), env);
        if !t.Normal? {
          return t;
        }
        x := if Truthy(t.v) then At(items, 2) else At(items, 3);
        fuel := fuel - 1;
      } else if IsSym(head, "set!") {
        var name := At(items, 1);
        if !name.Sym? {
          return Fail(Unmodelled);
        }
        var k := Find(st.frames, env, name.name);
        if k.Err? {
          return Fail(k.fault);
        }
        var v := EvalM(st, fuel - 1, At(items, 2), env);
        if !v.Normal? {
          return v;
        }
        st.SetAt(k.value, name.name, v.v);
        return Normal(NoneValue);
      } else if IsSym(head, "define") {
        var name := At(items, 1);
        var v := EvalM(st, fuel - 1, At(items, 2), env);
        if !v.Normal? {
          return v;
        }
        if !name.Sym? {
          return Fail(Unmodelled);
        }
        st.SetAt(env, name.name, v.v);
        return Normal(NoneValue);
      } else if IsSym(head, "lambda") {
        return Normal(Closure(At(items, 1), At(items, 2), env));
      } else if IsSym(head, "begin") {
        o := EvalSeqM(st, fuel - 1, items[1..], env);
        return;
      } else {
        var vs := EvalArgsM(st, fuel - 1, items, env);
        if !vs.Normal? {
          return vs;
        }
        if items == [] {
          return Fail(HostError);
        }
        var proc := vs.v.items[0];
        var args := vs.v.items[1..];
        if proc.Closure? {
          var e := st.NewEnv(proc.parms, args, Some(proc.env));
          if e.Err? {
            return Fail(e.fault);
          }
          x, env, fuel := proc.body, e.value, fuel - 1;
        } else {
          o := ApplyM(st, fuel - 1, proc, args);
          return;
        }
      }
    }
  }

  /** The `foreach` of `begin`: the value of the last form, or null when there is none. */
  method EvalSeqM(st: Store, fuel: nat, xs: seq<Value>, env: nat) returns (o: Outcome)
    modifies st
    ensures (st.Snapshot(), o) == EvalSeq(fuel, old(st.Snapshot()), xs, env, Nil)
    decreases fuel, 1, |xs|
  {
    var last := Nil;
    var i := 0;
    while i < |xs|
      invariant 0 <= i <= |xs|
      invariant EvalSeq(fuel, st.Snapshot(), xs[i..], env, last) == EvalSeq(fuel, old(st.Snapshot()), xs, env, Nil)
    {
      var v := EvalM(st, fuel, xs[i], env);
      if !v.Normal? {
        return v;
      }
      assert xs[i..][1..] == xs[i + 1..];
      last := v.v;
      i := i + 1;
    }
    return Normal(last);
  }

  /** The `array_map` over an application's items: their values, left to right. */
  method EvalArgsM(st: Store, fuel: nat, xs: seq<Value>, env: nat) returns (o: Outcome)
    modifies st
    ensures (st.Snapshot(), o) == EvalArgs(fuel, old(st.Snapshot()), xs, env, [])
    decreases fuel, 1, |xs|
  {
    var acc := [];
    var i := 0;
    while i < |xs|
      invariant 0 <= i <= |xs|
      invariant EvalArgs(fuel, st.Snapshot(), xs[i..], env, acc) == EvalArgs(fuel, old(st.Snapshot()), xs, env, [])
    {
      var v := EvalM(st, fuel, xs[i], env);
      if !v.Normal? {
        return v;
      }
      assert xs[i..][1..] == xs[i + 1..];
      acc := acc + [v.v];
      i := i + 1;
    }
    return Normal(List(acc));
  }

  /** `call_user_func_array($proc, $args)` and `Procedure::__invoke`. */
  method ApplyM(st: Store, fuel: nat, proc: Value, args: seq<Value>) returns (o: Outcome)
    modifies st
    ensures (st.Snapshot(), o) == Apply(fuel, old(st.Snapshot()), proc, args)
    decreases fuel, 0, 0
  {
    if fuel == 0 {
      return Fail(OutOfFuel);
    }
    match proc
    case Closure(parms, body, e0) =>
      var e := st.NewEnv(parms, args, Some(e0));
      if e.Err? {
        return Fail(e.fault);
      }
      o := EvalM(st, fuel - 1, body, e.value);
    case Prim(op) =>
      if op.CallCC? {
        o := CallccM(st, fuel - 1, args);
      } else {
        o := ApplyPrim(op, args);
      }
    case Escaper(t) =>
      o := if args == [] then Fail(HostError) else Escape(t, args[0]);
    case _ =>
      o := Fail(HostError);
  }

  /** `callcc`: a fresh ball, the call, and a catch that keeps only that ball. */
  method CallccM(st: Store, fuel: nat, args: seq<Value>) returns (o: Outcome)
    modifies st
    ensures (st.Snapshot(), o) == Callcc(fuel, old(st.Snapshot()), args)
    decreases fuel, 0, 0
  {
    if fuel == 0 {
      return Fail(OutOfFuel);
    }
    if args == [] {
      return Fail(HostError);
    }
    var ball := st.NewBall();
    o := ApplyM(st, fuel - 1, args[0], [Escaper(ball)]);
    if o.Escape? && o.ball == ball {
      o := Normal(o.v);
    }
  }
}
