/** What lisp.php's `Env` promises: lookup along the chain, where `setAt` writes, and frame construction. */
module LispEnvProps {
  import opened Basics
  import opened LispValues
  import opened LispEnv

  /** The frames `find` visits from e: e itself, then its outer frames. */
  function Chain(frames: seq<Frame>, e: nat): (c: seq<nat>)
    ensures forall i :: 0 <= i < |c| ==> c[i] < |frames|
    decreases e
  {
    if e >= |frames| then []
    else [e] + match Outer(frames, e) case None => [] case Some(o) => Chain(frames, o)
  }

  /** The first frame of the list c that holds the name, searching left to right. */
  function FirstHolder(frames: seq<Frame>, c: seq<nat>, name: string): (r: Option<nat>)
    requires forall i :: 0 <= i < |c| ==> c[i] < |frames|
    ensures r.Some? ==> r.value in c && Holds(frames[r.value], name)
    ensures r.None? ==> forall i :: 0 <= i < |c| ==> !Holds(frames[c[i]], name)
  {
    if c == [] then None
    else if Holds(frames[c[0]], name) then Some(c[0])
    else FirstHolder(frames, c[1..], name)
  }

  /**
   * `find` answers the first frame of the chain that holds the name, and
   * raises LookupError exactly when no frame of the chain holds it.
   */
  lemma {:induction false} FindFirstInChain(frames: seq<Frame>, e: nat, name: string)
    ensures Find(frames, e, name) ==
      match FirstHolder(frames, Chain(frames, e), name)
      case Some(k) => Ok(k)
      case None => Err(LookupError)
    decreases e
  {
    if e < |frames| && !Holds(frames[e], name) {
      var c := Chain(frames, e);
      match Outer(frames, e)
      case None =>
      case Some(o) =>
        FindFirstInChain(frames, o, name);
        assert c[1..] == Chain(frames, o);
    }
  }

  /**
   * `setAt` changes exactly one binding, in frame e or in its immediate
   * outer frame; no other frame, no other name and no `outer` link changes.
   */
  lemma SetAtIsLocal(frames: seq<Frame>, e: nat, name: string, v: Value)
    requires e < |frames|
    ensures var r := SetAtF(frames, e, name, v);
      exists w :: (w == e || Outer(frames, e) == Some(w)) &&
        r[w].vals == frames[w].vals[name := v] &&
        forall j :: 0 <= j < |frames| && j != w ==> r[j] == frames[j]
    ensures forall j :: 0 <= j < |frames| ==> SetAtF(frames, e, name, v)[j].outer == frames[j].outer
  {
    var r := SetAtF(frames, e, name, v);
    match Outer(frames, e)
    case Some(o) =>
      if Holds(frames[o], name) { assert r == frames[o := Put(frames[o], name, v)]; }
      else { assert r == frames[e := Put(frames[e], name, v)]; }
    case None =>
      assert r == frames[e := Put(frames[e], name, v)];
  }

  /** When frame e holds the name itself, its outer frame does not, the write goes to e. */
  lemma {:induction false} LookupAfterSetAt(frames: seq<Frame>, e: nat, name: string, v: Value)
    requires e < |frames| && v != Nil
    requires Outer(frames, e).Some? ==> !Holds(frames[Outer(frames, e).value], name)
    ensures Lookup(SetAtF(frames, e, name, v), e, name) == Normal(v)
  {
    var r := SetAtF(frames, e, name, v);
    assert r[e] == Put(frames[e], name, v);
    assert Holds(r[e], name);
  }

  /**
   * The quirk of `setAt`: when frame e and its outer frame both hold the
   * name, the write lands in the outer frame, and looking the name up
   * from e still answers e's own, unchanged value.
   */
  lemma SetAtSkipsOwnBinding(frames: seq<Frame>, e: nat, name: string, v: Value)
    requires e < |frames| && Outer(frames, e).Some?
    requires Holds(frames[e], name) && Holds(frames[Outer(frames, e).value], name)
    ensures var r := SetAtF(frames, e, name, v);
      Lookup(r, e, name) == Lookup(frames, e, name) == Normal(frames[e].vals[name]) &&
      r[Outer(frames, e).value].vals[name] == v
  {
    var o := Outer(frames, e).value;
    assert SetAtF(frames, e, name, v) == frames[o := Put(frames[o], name, v)];
  }

  /** `setAt` of one name leaves the lookup of every other name, from every frame, as it was. */
  lemma {:induction false} SetAtKeepsOtherNames(frames: seq<Frame>, e: nat, name: string, v: Value, e': nat, other: string)
    requires other != name
    ensures Lookup(SetAtF(frames, e, name, v), e', other) == Lookup(frames, e', other)
    decreases e'
  {
    var r := SetAtF(frames, e, name, v);
    if e < |frames| {
      SetAtIsLocal(frames, e, name, v);
      if e' < |frames| {
        assert r[e'].vals.Keys - {name} == frames[e'].vals.Keys - {name};
        assert Holds(r[e'], other) == Holds(frames[e'], other);
        assert Outer(r, e') == Outer(frames, e');
        if Holds(frames[e'], other) {
          assert r[e'].vals[other] == frames[e'].vals[other];
        } else {
          match Outer(frames, e')
          case None =>
          case Some(o) => SetAtKeepsOtherNames(frames, e, name, v, o, other);
        }
      }
    }
  }

  /** Names that are already distinct pass through `array_combine` unchanged. */
  lemma {:induction false} CombinedDistinct(names: seq<string>, vals: seq<Value>)
    requires |names| == |vals| && Distinct(names)
    ensures Combined(names, vals) == (names, vals)
    decreases |names|
  {
    if names != [] {
      var n := |names| - 1;
      CombinedDistinct(names[..n], vals[..n]);
      var p := Combined(names[..n], vals[..n]);
      assert names[n] !in p.0;
      assert Combined(names, vals) == (p.0 + [names[n]], p.1 + [vals[n]]);
      assert names[..n] + [names[n]] == names && vals[..n] + [vals[n]] == vals;
    }
  }

  /** `array_combine` pairs a name with the value of its last occurrence. */
  lemma {:induction false} CombinedLast(names: seq<string>, vals: seq<Value>, i: nat)
    requires |names| == |vals| && i < |names|
    requires forall j :: i < j < |names| ==> names[j] != names[i]
    ensures var c := Combined(names, vals);
      names[i] in c.0 && c.1[IndexOf(c.0, names[i])] == vals[i]
    decreases |names|
  {
    var n := |names| - 1;
    var p := Combined(names[..n], vals[..n]);
    var c := Combined(names, vals);
    if i < n {
      CombinedLast(names[..n], vals[..n], i);
      var k := IndexOf(p.0, names[i]);
      assert c.0[k] == names[i];
      assert IndexOf(c.0, names[i]) == k;
    }
  }

  /**
   * A list of parameters with a repeated name binds it once, to the last of
   * its arguments: with `x` bound to 7 in the defining frame,
   * `((lambda (x x) x) nil 5)` writes 5 over that binding, and the earlier
   * null argument is never bound.
   */
  lemma NewFrameRepeatedParameter()
    ensures NewFrame([Frame(map["x" := Num(7)], None)], List([Sym("x"), Sym("x")]), [Nil, Num(5)], Some(0)) ==
            Ok([Frame(map["x" := Num(5)], None), Frame(map[], Some(0))])
  {
    var names := Names([Sym("x"), Sym("x")]);
    assert names == ["x", "x"];
    CombinedDistinct(["x"], [Nil]);
    assert names[..1] == ["x"] && [Nil, Num(5)][..1] == [Nil];
    assert IndexOf(["x"], "x") == 0;
    assert "x" in ["x"];
    assert [Nil][0 := Num(5)] == [Num(5)];
    assert Combined(names, [Nil, Num(5)]) == (["x"], [Num(5)]);
    var fs := [Frame(map["x" := Num(7)], None), Frame(map[], Some(0))];
    assert Outer(fs, 1) == Some(0) && Holds(fs[0], "x");
    assert map["x" := Num(7)]["x" := Num(5)] == map["x" := Num(5)];
    var r := [Frame(map["x" := Num(5)], None), Frame(map[], Some(0))];
    assert SetAtF(fs, 1, "x", Num(5)) == r;
    assert ["x"][1..] == [] && [Num(5)][1..] == [];
    assert UpdateF(r, 1, [], []) == r;
    assert UpdateF(fs, 1, ["x"], [Num(5)]) == r;
    assert AllSymbols([Sym("x"), Sym("x")]);
    assert [Frame(map["x" := Num(7)], None)] + [Frame(map[], Some(0))] == fs;
    assert Combined(Names([Sym("x"), Sym("x")]), [Nil, Num(5)]) == (["x"], [Num(5)]);
  }

  /**
   * A list of parameters, none of which the defining frame binds: each name
   * is bound in the new frame to the argument of its last occurrence.
   */
  lemma NewFrameBindsLast(frames: seq<Frame>, parms: seq<Value>, args: seq<Value>, o: nat, i: nat)
    requires AllSymbols(parms) && |args| == |parms| && i < |parms| && o < |frames|
    requires forall j :: i < j < |parms| ==> parms[j] != parms[i]
    requires forall j :: 0 <= j < |parms| ==> !Holds(frames[o], parms[j].name)
    ensures var r := NewFrame(frames, List(parms), args, Some(o));
      r.Ok? && parms[i].name in r.value[|frames|].vals && r.value[|frames|].vals[parms[i].name] == args[i]
  {
    var names := Names(parms);
    var c := Combined(names, args);
    var e := |frames|;
    var fs := frames + [Frame(map[], Some(o))];
    assert forall j :: i < j < |names| ==> names[j] != names[i];
    CombinedLast(names, args, i);
    assert Outer(fs, e) == Some(o) && fs[o] == frames[o];
    forall k | k in c.0
      ensures !Holds(fs[o], k)
    {
      var j :| 0 <= j < |names| && names[j] == k;
    }
    UpdateBindsEach(fs, e, c.0, c.1);
    var j := IndexOf(c.0, names[i]);
    assert c.0[j] == parms[i].name && c.1[j] == args[i];
  }

  /** A list of parameters needs exactly as many arguments: otherwise the constructor raises TypeError. */
  lemma NewFrameArity(frames: seq<Frame>, parms: Value, args: seq<Value>, outer: Option<nat>)
    requires parms.List?
    ensures NewFrame(frames, parms, args, outer) == Err(TypeError) <==> |args| != |parms.items|
    ensures |args| == |parms.items| && AllSymbols(parms.items) ==> NewFrame(frames, parms, args, outer).Ok?
    ensures |args| == |parms.items| && !AllSymbols(parms.items) ==> NewFrame(frames, parms, args, outer) == Err(Unmodelled)
  {
  }

  /** `(lambda (1) 1)` applied to 5: PHP binds the key "1"; the model does not follow the key conversion. */
  lemma NewFrameNumberParameter(frames: seq<Frame>, outer: Option<nat>)
    ensures NewFrame(frames, List([Num(1)]), [Num(5)], outer) == Err(Unmodelled)
  {
    assert !AllSymbols([Num(1)]) by {
      assert ![Num(1)][0].Sym?;
    }
  }

  /**
   * A symbol as the parameter spec receives the whole argument list in the
   * new frame, unless the defining frame already binds that symbol.
   */
  lemma NewFrameRest(frames: seq<Frame>, name: string, args: seq<Value>, outer: Option<nat>)
    requires outer.Some? ==> outer.value < |frames| && !Holds(frames[outer.value], name)
    ensures var r := NewFrame(frames, Sym(name), args, outer);
      r.Ok? && Lookup(r.value, |frames|, name) == Normal(List(args))
  {
    var fs := frames + [Frame(map[], outer)];
    var r := SetAtF(fs, |frames|, name, List(args));
    assert r[|frames|] == Put(fs[|frames|], name, List(args));
  }

  /**
   * The quirk of parameter binding: when the defining frame binds the
   * parameter's name, the argument overwrites that binding and the new
   * frame stays empty.
   */
  lemma NewFrameOverwritesOuter(frames: seq<Frame>, name: string, arg: Value, o: nat)
    requires o < |frames| && Holds(frames[o], name)
    ensures var r := NewFrame(frames, List([Sym(name)]), [arg], Some(o));
      r.Ok? && r.value[|frames|].vals == map[] && name in r.value[o].vals && r.value[o].vals[name] == arg &&
      r.value[..|frames|] == frames[o := Put(frames[o], name, arg)]
  {
    var fs := frames + [Frame(map[], Some(o))];
    assert Outer(fs, |frames|) == Some(o) && fs[o] == frames[o];
    var r := fs[o := Put(fs[o], name, arg)];
    assert SetAtF(fs, |frames|, name, arg) == r;
    NewFrameOne(frames, name, arg, Some(o));
    assert r[o].vals[name] == arg;
  }

  /** One parameter in a list is bound as one `setAt` into the new frame. */
  lemma NewFrameOne(frames: seq<Frame>, name: string, arg: Value, outer: Option<nat>)
    ensures NewFrame(frames, List([Sym(name)]), [arg], outer) ==
            Ok(SetAtF(frames + [Frame(map[], outer)], |frames|, name, arg))
  {
    var fs := frames + [Frame(map[], outer)];
    var r := SetAtF(fs, |frames|, name, arg);
    var c := Combined(Names([Sym(name)]), [arg]);
    assert c == ([name], [arg]) by {
      assert Names([Sym(name)]) == [name];
      CombinedDistinct([name], [arg]);
    }
    assert UpdateF(fs, |frames|, [name], [arg]) == r by {
      assert [name][1..] == [] && [arg][1..] == [];
      assert UpdateF(r, |frames|, [], []) == r;
    }
  }

  /**
   * `update` into a frame whose outer frame binds none of the names: each
   * name ends up bound, in that frame, to its own value.
   */
  lemma {:induction false} UpdateBindsEach(frames: seq<Frame>, e: nat, names: seq<string>, vals: seq<Value>)
    requires |names| == |vals| && e < |frames| && Distinct(names)
    requires Outer(frames, e).Some? ==> forall n :: n in names ==> !Holds(frames[Outer(frames, e).value], n)
    ensures var r := UpdateF(frames, e, names, vals);
      forall i :: 0 <= i < |names| ==> names[i] in r[e].vals && r[e].vals[names[i]] == vals[i]
    decreases |names|
  {
    if names != [] {
      var f1 := SetAtF(frames, e, names[0], vals[0]);
      assert f1 == frames[e := Put(frames[e], names[0], vals[0])];
      assert Outer(f1, e) == Outer(frames, e);
      UpdateBindsEach(f1, e, names[1..], vals[1..]);
      var r := UpdateF(f1, e, names[1..], vals[1..]);
      UpdateKeepsOthers(f1, e, names[1..], vals[1..], names[0]);
      forall i | 0 <= i < |names|
        ensures names[i] in r[e].vals && r[e].vals[names[i]] == vals[i]
      {
        if i > 0 { assert names[1..][i - 1] == names[i]; }
      }
    }
  }

  /** `update` leaves the binding of a name it does not mention untouched in every frame. */
  lemma {:induction false} UpdateKeepsOthers(frames: seq<Frame>, e: nat, names: seq<string>, vals: seq<Value>, n: string)
    requires |names| == |vals| && n !in names
    ensures var r := UpdateF(frames, e, names, vals);
      forall j :: 0 <= j < |frames| ==>
        ((n in r[j].vals <==> n in frames[j].vals) && (n in frames[j].vals ==> r[j].vals[n] == frames[j].vals[n]))
    decreases |names|
  {
    if names != [] {
      var f1 := SetAtF(frames, e, names[0], vals[0]);
      if e < |frames| { SetAtIsLocal(frames, e, names[0], vals[0]); }
      UpdateKeepsOthers(f1, e, names[1..], vals[1..], n);
    }
  }
}
