/**
 * lis.php's `_eval` as the source runs it: recursive calls that update the
 * `Env` objects in place, the `foreach` of `begin` and the `array_map`
 * over an application. Each method is proved to agree with the function
 * of the same name in `LisEval`.
 */
module LisMachine {
  import opened Basics
  import opened LisValues
  import opened LisEnv
  import opened LisEval

  /** `_eval($x, $env)`. */
  method EvalM(st: Store, fuel: nat, x: Value, env: nat) returns (r: Result<Value>)
    modifies st
    ensures (st.frames, r) == Eval(fuel, old(st.frames), x, env)
    decreases fuel, 1, 0
  {
    if x.Sym? {
      return Ok(Lookup(st.frames, env, x.name));
    }
    if !x.List? {
      return Ok(x);
    }
    if fuel == 0 {
      return Err(OutOfFuel);
    }
    var items := x.items;
    if IsForm(items, "quote") {
      return Ok(ItemAt(items, 1));
    } else if IsForm(items, "if") {
      var t := EvalM(st, fuel - 1, ItemAt(items, 1), env);
      if t.Err? {
        return t;
      }
      var b := Truth(t.value);
      if b.Err? {
        return Err(b.fault);
      }
      r := EvalM(st, fuel - 1, if b.value then ItemAt(items, 2) else ItemAt(items, 3), env);
    } else if IsForm(items, "set!") {
      var name := NameOf(ItemAt(items, 1));
      if name.Err? {
        return Err(name.fault);
      }
      var k := Find(st.frames, env, name.value);
      var v := EvalM(st, fuel - 1, ItemAt(items, 2), env);
      if v.Err? {
        return v;
      }
      st.SetAt(k, name.value, v.value);
      return Ok(Nil);
    } else if IsForm(items, "define") {
      var v := EvalM(st, fuel - 1, ItemAt(items, 2), env);
      if v.Err? {
        return v;
      }
      var name := NameOf(ItemAt(items, 1));
      if name.Err? {
        return Err(name.fault);
      }
      st.SetAt(env, name.value, v.value);
      return Ok(Nil);
    } else if IsForm(items, "lambda") {
      return Ok(Lambda(items, env));
    } else if IsForm(items, "begin") {
      r := EvalSeqM(st, fuel - 1, items[1..], env);
    } else {
      var vs := EvalArgsM(st, fuel - 1, items, env);
      if vs.Err? {
        return Err(vs.fault);
      }
      if vs.value == [] {
        return Err(HostError);
      }
      r := ApplyM(st, fuel - 1, vs.value[0], vs.value[1..]);
    }
  }

  /** `foreach(array_slice($x, 1) as $exp) $val = _eval($exp, $env)`: the last value, null when there is none. */
  method EvalSeqM(st: Store, fuel: nat, xs: seq<Value>, env: nat) returns (r: Result<Value>)
    modifies st
    ensures (st.frames, r) == EvalSeq(fuel, old(st.frames), xs, env, Nil)
    decreases fuel, 2, |xs|
  {
    var last := Nil;
    var i := 0;
    while i < |xs|
      invariant 0 <= i <= |xs|
      invariant EvalSeq(fuel, st.frames, xs[i..], env, last) == EvalSeq(fuel, old(st.frames), xs, env, Nil)
    {
      var v := EvalM(st, fuel, xs[i], env);
      if v.Err? {
        return v;
      }
      assert xs[i..][1..] == xs[i + 1..];
      last := v.value;
      i := i + 1;
    }
    return Ok(last);
  }

  /** The `array_map` over an application's items: their values, left to right. */
  method EvalArgsM(st: Store, fuel: nat, xs: seq<Value>, env: nat) returns (r: Result<seq<Value>>)
    modifies st
    ensures (st.frames, r) == EvalArgs(fuel, old(st.frames), xs, env, [])
    decreases fuel, 2, |xs|
  {
    var acc := [];
    var i := 0;
    while i < |xs|
      invariant 0 <= i <= |xs|
      invariant EvalArgs(fuel, st.frames, xs[i..], env, acc) == EvalArgs(fuel, old(st.frames), xs, env, [])
    {
      var v := EvalM(st, fuel, xs[i], env);
      if v.Err? {
        return Err(v.fault);
      }
      assert xs[i..][1..] == xs[i + 1..];
      acc := acc + [v.value];
      i := i + 1;
    }
    return Ok(acc);
  }

  /**
   * `call_user_func_array($proc, $args)`: `Lambda::__invoke` runs the closure
   * `lambda` built, which evaluates the body in `new Env(array_combine(...))`.
   */
  method ApplyM(st: Store, fuel: nat, f: Value, args: seq<Value>) returns (r: Result<Value>)
    modifies st
    ensures (st.frames, r) == Apply(fuel, old(st.frames), f, args)
    decreases fuel, 2, 0
  {
    match f
    case Lambda(form, cenv) =>
      var vals := Bind(ItemAt(form, 1), args);
      if vals.Err? {
        return Err(vals.fault);
      }
      var e := st.NewEnv(vals.value, cenv);
      r := EvalM(st, fuel, ItemAt(form, 2), e);
    case Prim(op) =>
      r := ApplyPrim(op, args);
    case _ =>
      r := Err(HostError);
  }
}
