/** lisp.php's `expand_quasiquote`: a template becomes `cons`/`append`/`quote` construction. */
module LispQuasi {
  import opened LispValues

  /**
   * `expand_quasiquote`. Only the nested-quasiquote case re-expands a value
   * that is not part of the template, and it spends one unit of fuel.
   */
  function ExpandQuasi(fuel: nat, x: Value): (r: Outcome)
    ensures !r.Escape?
    decreases fuel, Size(x)
  {
    if !IsPair(x) then Normal(List([Sym("quote"), x]))
    else
      var items := x.items;
      SizeTail(items);
      if IsSym(items[0], "unquote-splicing") then Fail(SyntaxError)
      else if IsSym(items[0], "unquote") then
        if |items| == 2 then Normal(items[1]) else Fail(SyntaxError)
      else if IsPair(items[0]) && IsSym(items[0].items[0], "unquote-splicing") then
        if |items[0].items| != 2 then Fail(SyntaxError)
        else
          var rest := ExpandQuasi(fuel, List(items[1..]));
          if rest.Normal? then Normal(List([Sym("append"), items[0].items[1], rest.v])) else rest
      else if IsSym(items[0], "quasiquote") then
        var inner := ExpandQuasi(fuel, List(items[1..]));
        if !inner.Normal? then inner
        else
          var y := IndexValue(inner.v, 1);
          if !y.Normal? then y
          else if fuel == 0 then Fail(OutOfFuel)
          else ExpandQuasi(fuel - 1, y.v)
      else
        var hd := ExpandQuasi(fuel, items[0]);
        if !hd.Normal? then hd
        else
          var rest := ExpandQuasi(fuel, List(items[1..]));
          if rest.Normal? then Normal(List([Sym("cons"), hd.v, rest.v])) else rest
  }
}
