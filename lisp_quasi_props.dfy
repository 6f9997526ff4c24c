/**
 * What `expand_quasiquote` promises: the construction it writes builds the
 * list the template describes. Two small reference meanings make this
 * precise: `Inst` fills a template's holes from a map of variables, and
 * `Build` computes the value of a `quote`/`cons`/`append` expression.
 */
module LispQuasiProps {
  import opened Basics
  import opened LispValues
  import opened LispQuasi

  /**
   * The list a template stands for when every `unquote` and
   * `unquote-splicing` names a variable of env (and each spliced variable
   * holds a list). Nested quasiquotes have no meaning here.
   */
  function Inst(t: Value, env: map<string, Value>): Option<Value>
    decreases Size(t)
  {
    if !IsPair(t) then Some(t)
    else
      var items := t.items;
      SizeTail(items);
      var head := items[0];
      if IsSym(head, "unquote-splicing") || IsSym(head, "quasiquote") then None
      else if IsSym(head, "unquote") then
        if |items| == 2 && items[1].Sym? && items[1].name in env then Some(env[items[1].name]) else None
      else
        match Inst(List(items[1..]), env)
        case Some(List(rest)) =>
          if IsPair(head) && IsSym(head.items[0], "unquote-splicing") then
            var hole := At(head.items, 1);
            if |head.items| == 2 && hole.Sym? && hole.name in env && env[hole.name].List? then
              Some(List(env[hole.name].items + rest))
            else None
          else
            (match Inst(head, env)
             case Some(h) => Some(List([h] + rest))
             case None => None)
        case _ => None
  }

  /** The value of a construction made of variables, `quote`, `cons` and `append`. */
  function Build(e: Value, env: map<string, Value>): Option<Value>
    decreases Size(e)
  {
    match e
    case Sym(name) => if name in env then Some(env[name]) else None
    case List(items) =>
      if |items| == 2 && IsSym(items[0], "quote") then Some(items[1])
      else if |items| == 3 && (IsSym(items[0], "cons") || IsSym(items[0], "append")) then
        SizeTail(items);
        SizeTail(items[1..]);
        match (Build(items[1], env), Build(items[2], env))
        case (Some(a), Some(List(b))) =>
          if IsSym(items[0], "cons") then Some(List([a] + b))
          else if a.List? then Some(List(a.items + b))
          else None
        case _ => None
      else None
    case _ => None
  }

  /**
   * Every template with a meaning expands without error, into a
   * construction that builds exactly that meaning.
   */
  lemma {:induction false} ExpandQuasiBuildsTemplate(fuel: nat, t: Value, env: map<string, Value>)
    requires Inst(t, env).Some?
    ensures ExpandQuasi(fuel, t).Normal?
    ensures Build(ExpandQuasi(fuel, t).v, env) == Inst(t, env)
    decreases Size(t)
  {
    if IsPair(t) {
      var items := t.items;
      SizeTail(items);
      var head := items[0];
      if !IsSym(head, "unquote") {
        var rest := List(items[1..]);
        ExpandQuasiBuildsTemplate(fuel, rest, env);
        var r := ExpandQuasi(fuel, rest).v;
        if IsPair(head) && IsSym(head.items[0], "unquote-splicing") {
          var e := List([Sym("append"), head.items[1], r]);
          assert ExpandQuasi(fuel, t) == Normal(e);
          assert Build(e, env) == Inst(t, env) by {
            assert Build(head.items[1], env) == Some(env[head.items[1].name]);
          }
        } else {
          ExpandQuasiBuildsTemplate(fuel, head, env);
          var e := List([Sym("cons"), ExpandQuasi(fuel, head).v, r]);
          assert ExpandQuasi(fuel, t) == Normal(e);
        }
      }
    }
  }

  /** `` `,@L ``: splicing directly under the quasiquote is a SyntaxError. */
  lemma SpliceAtTopFails(fuel: nat, e: Value)
    ensures ExpandQuasi(fuel, List([Sym("unquote-splicing"), e])) == Fail(SyntaxError)
  {
  }

  /** The template of `` `(testing ,@L testing) ``. */
  function SpliceTemplate(): Value {
    List([Sym("testing"), List([Sym("unquote-splicing"), Sym("L")]), Sym("testing")])
  }

  /** `` `(testing ,@L testing) `` with L bound to (1 2 3) builds (testing 1 2 3 testing). */
  lemma SpliceExample(fuel: nat)
    ensures var e := ExpandQuasi(fuel, SpliceTemplate());
      e == Normal(List([Sym("cons"), List([Sym("quote"), Sym("testing")]),
                   List([Sym("append"), Sym("L"),
                     List([Sym("cons"), List([Sym("quote"), Sym("testing")]), List([Sym("quote"), List([])])])])])) &&
      Build(e.v, map["L" := List([Num(1), Num(2), Num(3)])]) ==
        Some(List([Sym("testing"), Num(1), Num(2), Num(3), Sym("testing")]))
  {
    var t := SpliceTemplate();
    var tail := List([Sym("testing")]);
    assert t.items[1..] == [List([Sym("unquote-splicing"), Sym("L")]), Sym("testing")];
    assert t.items[1..][1..] == [Sym("testing")];
    assert tail.items[1..] == [];
    var env := map["L" := List([Num(1), Num(2), Num(3)])];
    assert Inst(List(tail.items[1..]), env) == Some(List([]));
    assert Inst(Sym("testing"), env) == Some(Sym("testing"));
    assert [Sym("testing")] + [] == tail.items;
    assert Inst(tail, env) == Some(tail);
    var mid := List([List([Sym("unquote-splicing"), Sym("L")]), Sym("testing")]);
    assert List(t.items[1..]) == mid;
    assert List(mid.items[1..]) == tail;
    assert env["L"].items + tail.items == [Num(1), Num(2), Num(3), Sym("testing")];
    assert Inst(mid, env) == Some(List([Num(1), Num(2), Num(3), Sym("testing")]));
    assert [Sym("testing")] + [Num(1), Num(2), Num(3), Sym("testing")] == [Sym("testing"), Num(1), Num(2), Num(3), Sym("testing")];
    var qt := List([Sym("quote"), Sym("testing")]);
    var e1 := List([Sym("cons"), qt, List([Sym("quote"), List([])])]);
    assert ExpandQuasi(fuel, List(tail.items[1..])) == Normal(List([Sym("quote"), List([])]));
    assert ExpandQuasi(fuel, tail) == Normal(e1);
    var e2 := List([Sym("append"), Sym("L"), e1]);
    assert ExpandQuasi(fuel, mid) == Normal(e2);
    assert Inst(t, env) == Some(List([Sym("testing"), Num(1), Num(2), Num(3), Sym("testing")]));
    ExpandQuasiBuildsTemplate(fuel, t, env);
  }

  /** `` `(testing ,L testing) `` with L bound to (1 2 3) builds (testing (1 2 3) testing). */
  lemma UnquoteExample(fuel: nat)
    ensures var t := List([Sym("testing"), List([Sym("unquote"), Sym("L")]), Sym("testing")]);
      var e := ExpandQuasi(fuel, t);
      e.Normal? &&
      Build(e.v, map["L" := List([Num(1), Num(2), Num(3)])]) ==
        Some(List([Sym("testing"), List([Num(1), Num(2), Num(3)]), Sym("testing")]))
  {
    var t := List([Sym("testing"), List([Sym("unquote"), Sym("L")]), Sym("testing")]);
    var l := List([Num(1), Num(2), Num(3)]);
    var env := map["L" := l];
    var tail := List([Sym("testing")]);
    assert t.items[1..] == [List([Sym("unquote"), Sym("L")]), Sym("testing")];
    assert t.items[1..][1..] == [Sym("testing")];
    assert tail.items[1..] == [];
    assert Inst(List(tail.items[1..]), env) == Some(List([]));
    assert Inst(Sym("testing"), env) == Some(Sym("testing"));
    assert [Sym("testing")] + [] == tail.items;
    assert Inst(tail, env) == Some(tail);
    assert Inst(List([Sym("unquote"), Sym("L")]), env) == Some(l);
    var mid := List([List([Sym("unquote"), Sym("L")]), Sym("testing")]);
    assert List(t.items[1..]) == mid;
    assert List(mid.items[1..]) == tail;
    assert [l] + tail.items == [l, Sym("testing")];
    assert Inst(mid, env) == Some(List([l, Sym("testing")]));
    assert [Sym("testing")] + [l, Sym("testing")] == [Sym("testing"), l, Sym("testing")];
    assert Inst(t, env) == Some(List([Sym("testing"), l, Sym("testing")]));
    ExpandQuasiBuildsTemplate(fuel, t, env);
  }
}
