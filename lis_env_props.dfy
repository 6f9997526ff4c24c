/** What lis.php's `Env` promises: `find` and `at` along the chain, and where `setAt` and `update` write. */
module LisEnvProps {
  import opened Basics
  import opened LisValues
  import opened LisEnv

  /** The frames `find` visits from e: e itself, then its outer frames. */
  function Chain(frames: seq<Frame>, e: nat): (c: seq<nat>)
    ensures forall i :: 0 <= i < |c| ==> c[i] < |frames|
    ensures e < |frames| ==> c != [] && c[0] == e
    decreases e
  {
    if e >= |frames| then []
    else [e] + match Outer(frames, e) case None => [] case Some(o) => Chain(frames, o)
  }

  /** The first frame of the list c that holds the name, searching left to right. */
  function FirstHolder(frames: seq<Frame>, c: seq<nat>, name: string): (r: Option<nat>)
    requires forall i :: 0 <= i < |c| ==> c[i] < |frames|
    ensures r.Some? ==> r.value in c && Holds(frames[r.value], name)
    ensures r.None? ==> forall i :: 0 <= i < |c| ==> !Holds(frames[c[i]], name)
  {
    if c == [] then None
    else if Holds(frames[c[0]], name) then Some(c[0])
    else FirstHolder(frames, c[1..], name)
  }

  /**
   * `find` answers the first frame of the chain that holds the name, and
   * when none does, the last frame of the chain, the one without an outer
   * frame.
   */
  lemma {:induction false} FindFirstInChain(frames: seq<Frame>, e: nat, name: string)
    requires e < |frames|
    ensures var c := Chain(frames, e);
      Find(frames, e, name) ==
        match FirstHolder(frames, c, name)
        case Some(k) => k
        case None => c[|c| - 1]
    decreases e
  {
    if !Holds(frames[e], name) {
      var c := Chain(frames, e);
      match Outer(frames, e)
      case None =>
      case Some(o) =>
        FindFirstInChain(frames, o, name);
        assert c[1..] == Chain(frames, o);
    }
  }

  /** When no frame of the chain holds the name, `find` stops at a frame without an outer frame. */
  lemma {:induction false} FindUnboundStopsAtRoot(frames: seq<Frame>, e: nat, name: string)
    requires e < |frames|
    requires FirstHolder(frames, Chain(frames, e), name).None?
    ensures Outer(frames, Find(frames, e, name)).None?
    decreases e
  {
    var c := Chain(frames, e);
    assert !Holds(frames[c[0]], name);
    match Outer(frames, e)
    case None =>
    case Some(o) =>
      assert c[1..] == Chain(frames, o);
      FindUnboundStopsAtRoot(frames, o, name);
  }

  /**
   * A variable reference answers the value in the first frame of the chain
   * that holds the name; a name no frame holds reads as false, not as an
   * error.
   */
  lemma LookupInChain(frames: seq<Frame>, e: nat, name: string)
    requires e < |frames|
    ensures var h := FirstHolder(frames, Chain(frames, e), name);
      Lookup(frames, e, name) == match h case Some(k) => frames[k].vals[name] case None => Bool(false)
  {
    FindFirstInChain(frames, e, name);
    var c := Chain(frames, e);
    if FirstHolder(frames, c, name).None? {
      assert Find(frames, e, name) == c[|c| - 1];
      assert !Holds(frames[c[|c| - 1]], name);
    }
  }

  /** `setAt` leaves every `outer` link, and so every chain, as it was. */
  lemma {:induction false} SetAtKeepsChains(frames: seq<Frame>, k: nat, name: string, v: Value, e: nat)
    ensures Chain(SetAtF(frames, k, name, v), e) == Chain(frames, e)
    decreases e
  {
    var r := SetAtF(frames, k, name, v);
    if e < |frames| {
      assert r[e].outer == frames[e].outer;
      assert Outer(r, e) == Outer(frames, e);
      match Outer(frames, e)
      case None =>
      case Some(o) => SetAtKeepsChains(frames, k, name, v, o);
    }
  }

  /**
   * `set!`'s write, `$env->find($var)->setAt($var, $val)`: a non-null value
   * written there is what the variable then reads as from e.
   */
  lemma {:induction false} LookupAfterSetAtFound(frames: seq<Frame>, e: nat, name: string, v: Value)
    requires e < |frames| && v != Nil
    ensures Lookup(SetAtF(frames, Find(frames, e, name), name, v), e, name) == v
    decreases e
  {
    var k := Find(frames, e, name);
    var r := SetAtF(frames, k, name, v);
    if k == e {
      assert r[e].vals[name] == v;
    } else {
      assert !Holds(frames[e], name) && Outer(frames, e).Some?;
      var o := Outer(frames, e).value;
      assert r[e] == frames[e] && Outer(r, e) == Some(o);
      LookupAfterSetAtFound(frames, o, name, v);
    }
  }

  /** `setAt` of one name leaves the lookup of every other name, from every frame, as it was. */
  lemma {:induction false} SetAtKeepsOtherNames(frames: seq<Frame>, k: nat, name: string, v: Value, e: nat, other: string)
    requires other != name
    ensures Lookup(SetAtF(frames, k, name, v), e, other) == Lookup(frames, e, other)
    decreases e
  {
    var r := SetAtF(frames, k, name, v);
    if e < |frames| {
      assert Holds(r[e], other) == Holds(frames[e], other);
      assert Outer(r, e) == Outer(frames, e);
      if Holds(frames[e], other) {
        assert r[e].vals[other] == frames[e].vals[other];
      } else {
        match Outer(frames, e)
        case None =>
        case Some(o) => SetAtKeepsOtherNames(frames, k, name, v, o, other);
      }
    }
  }

  /** The global frame binds each primitive under its name and has no outer frame. */
  lemma GlobalFrame()
    ensures |InitialFrames()| == 1 && InitialFrames()[GlobalEnv] == Frame(GlobalTable(), None)
    ensures Lookup(InitialFrames(), GlobalEnv, "+") == Prim(Add)
    ensures Lookup(InitialFrames(), GlobalEnv, "car") == Prim(Car)
  {
    assert GlobalTable() + map[] == GlobalTable();
  }
}
