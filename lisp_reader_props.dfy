/** Properties of lisp.php's reader: tokenizer, `read`, `atom` and `to_string`. */
module LispReaderProps {
  import opened PhpText
  import opened LispValues
  import opened LispReader

  // ---------------------------------------------------------------- the string alternative

  /**
   * As written, a string literal whose first character after the quote is
   * not one of `] . | [ ^ "` matches no string token: nothing is skipped, the
   * token is empty and the buffer is handed back unchanged, so the loop of
   * `next_token` (which discards empty tokens) turns forever.
   */
  lemma LexAsWrittenStallsOnString(line: string)
    requires |line| >= 2 && line[0] == '"' && !InWrittenClass(line[1])
    ensures LexAsWritten(line) == Lexed("", "", line)
  {
    assert SpaceRun(line) == 0;
    assert line[0..] == line;
    var t := line[1..];
    assert t[0] == line[1];
    assert WrittenClassRun(t) == 0;
    assert WrittenStringLen(line) == 0;
    assert AtomRun(line) == 0;
    assert TokenLen(line, true) == 0;
  }

  /** The line of a call with a string argument, `"hi")`, stalls the tokenizer as written. */
  lemma LexAsWrittenStallsOnHi()
    ensures LexAsWritten("\"hi\")") == Lexed("", "", "\"hi\")")
  {
    LexAsWrittenStallsOnString("\"hi\")");
  }

  lemma {:induction false} StringEndPlain(s: string, i: nat, j: nat)
    requires i <= j < |s| && s[j] == '"'
    requires forall k :: i <= k < j ==> s[k] != '"' && s[k] != '\\'
    ensures StringEnd(s, i) == j + 1
    decreases j - i
  {
    if i < j {
      StringEndPlain(s, i + 1, j);
    }
  }

  /**
   * With the intended alternative `"(?:\\.|[^\\"])*"`, a quoted text without
   * quotes or backslashes is one token, and the rest of the line follows it.
   */
  lemma LexStringLiteral(body: string, rest: string)
    requires forall k :: 0 <= k < |body| ==> body[k] != '"' && body[k] != '\\'
    ensures Lex("\"" + body + "\"" + rest) == Lexed("", "\"" + body + "\"", rest)
  {
    var line := "\"" + body + "\"" + rest;
    assert SpaceRun(line) == 0;
    forall k | 1 <= k < |body| + 1 ensures line[k] != '"' && line[k] != '\\' {
      assert line[k] == body[k - 1];
    }
    StringEndPlain(line, 1, |body| + 1);
    assert line[0..] == line;
    assert TokenLen(line, false) == |body| + 2;
    assert line[..|body| + 2] == "\"" + body + "\"";
    assert line[|body| + 2..] == rest;
  }

  /** The corrected tokenizer reads `"hi")` as the string token and leaves `)`. */
  lemma LexHi()
    ensures Lex("\"hi\")") == Lexed("", "\"hi\"", ")")
  {
    LexStringLiteral("hi", ")");
    assert "\"" + "hi" + "\"" + ")" == "\"hi\")";
  }

  // ---------------------------------------------------------------- read

  /** A quote-shorthand token followed by a datum reads as the two-element list. */
  lemma ReadQuoteShorthand(p: Port, q: string)
    requires IsQuoteToken(q) && NextTokenF(p).0 == Tok(q)
    ensures var (d, p2) := ReadF(NextTokenF(p).1);
            ReadF(p) == (if d.Ok? then Ok(List([Sym(QuoteName(q)), d.value])) else d, p2)
  {
    var p1 := NextTokenF(p).1;
    assert q != EofName && q != "(" && q != ")";
    assert ReadF(p) == ReadAheadF(Tok(q), p1);
  }

  /** A `)` where a datum is expected is a syntax error. */
  lemma ReadUnexpectedClose(p: Port)
    requires NextTokenF(p).0 == Tok(")")
    ensures ReadF(p).0 == Err(SyntaxError)
  {
  }

  /** At top level the end of input reads as the eof symbol. */
  lemma ReadEofAtTop(p: Port)
    requires NextTokenF(p).0 == Eof
    ensures ReadF(p).0 == Ok(Sym(EofName))
  {
  }

  /** The end of input inside an open list is a syntax error. */
  lemma ReadEofInList(p: Port, acc: seq<Value>)
    requires NextTokenF(p).0 == Eof
    ensures ReadListF(p, acc).0 == Err(SyntaxError)
  {
  }

  /** An empty text reads as the eof symbol. */
  lemma ReadEmptyText()
    ensures ReadF(PortOf("")).0 == Ok(Sym(EofName))
  {
    assert Explode('\n', "") == [""];
  }

  // ---------------------------------------------------------------- atom and to_string

  /** A token that reads as a symbol. */
  predicate SymbolToken(t: string) {
    t != "#t" && t != "#f" && t != "\"" && !IsNumeric(t)
  }

  /** Printing what `atom` made of `#t`, `#f`, a symbol token or an integer PHP prints plainly gives the token back. */
  lemma ToStringOfAtom(t: string)
    requires t == "#t" || t == "#f" || SymbolToken(t) || exists n: int :: PrintsPlain(n) && t == IntToString(n)
    ensures ToString(Atom(t)) == Ok(t)
  {
    if t != "#t" && t != "#f" && !SymbolToken(t) {
      var n: int :| PrintsPlain(n) && t == IntToString(n);
      IntToStringReadsBack(n);
      assert t != "#t" && t != "#f" && t != "\"" by {
        var m: nat := if n < 0 then -n else n;
        assert AllDigits(NatToString(m));
        assert IsDigit(t[|t| - 1]);
      }
    }
  }

  /** `atom` of the printed form of a boolean, a plainly printed integer or a symbol gives the value back. */
  lemma AtomOfToString(v: Value)
    requires v.Bool? || (v.Num? && PrintsPlain(v.n)) || (v.Sym? && SymbolToken(v.name))
    ensures ToString(v).Ok? && Atom(ToString(v).value) == v
  {
    if v.Num? {
      IntToStringReadsBack(v.n);
      var t := IntToString(v.n);
      var m: nat := if v.n < 0 then -v.n else v.n;
      assert AllDigits(NatToString(m));
      assert IsDigit(t[|t| - 1]);
    }
  }

  /** An integer from fifteen digits on is not printed as plain digits. */
  lemma ToStringOfWideInteger(n: int)
    requires !PrintsPlain(n)
    ensures ToString(Num(n)) == Err(Unmodelled)
  {
  }

  /** When every item prints, a list prints as its items' texts, space-separated, inside parentheses. */
  lemma ToStringOfList(items: seq<Value>, texts: seq<string>)
    requires |texts| == |items|
    requires forall i :: 0 <= i < |items| ==> ToString(items[i]) == Ok(texts[i])
    ensures ToString(List(items)) == Ok("(" + Join(" ", texts) + ")")
  {
    ToStringsAll(items, texts);
  }

  lemma {:induction false} ToStringsAll(items: seq<Value>, texts: seq<string>)
    requires PrintsAs(items, texts)
    ensures ToStrings(items) == Ok(texts)
  {
    if items != [] {
      assert PrintsAs(items[1..], texts[1..]) by {
        forall i | 0 <= i < |items[1..]|
          ensures ToString(items[1..][i]) == Ok(texts[1..][i])
        {
          assert items[1..][i] == items[i + 1] && texts[1..][i] == texts[i + 1];
        }
      }
      ToStringsAll(items[1..], texts[1..]);
      assert ToString(items[0]) == Ok(texts[0]);
      assert texts == [texts[0]] + texts[1..];
    }
  }

  /** Each item prints as the text at the same place. */
  predicate PrintsAs(items: seq<Value>, texts: seq<string>) {
    |texts| == |items| && forall i :: 0 <= i < |items| ==> ToString(items[i]) == Ok(texts[i])
  }


  /** A list whose item i is the first that cannot print fails as that item does. */
  lemma ToStringOfListFails(items: seq<Value>, i: nat)
    requires i < |items| && ToString(items[i]).Err?
    requires forall k :: 0 <= k < i ==> ToString(items[k]).Ok?
    ensures ToString(List(items)) == Err(ToString(items[i]).fault)
  {
    ToStringsFailsAt(items, i);
  }

  lemma {:induction false} ToStringsFailsAt(items: seq<Value>, i: nat)
    requires i < |items| && ToString(items[i]).Err?
    requires forall k :: 0 <= k < i ==> ToString(items[k]).Ok?
    ensures ToStrings(items) == Err(ToString(items[i]).fault)
  {
    if i > 0 {
      ToStringsFailsAt(items[1..], i - 1);
    }
  }
}
