/**
 * `read` undoes `to_string` in lisp.php: the text printed for a datum made
 * of booleans, plainly printed integers, bare symbols and lists reads back
 * as that datum. The proof follows the tokenizer over the printed line.
 */
module LispRoundTrip {
  import opened PhpText
  import opened LispValues
  import opened LispReader
  import opened LispReaderProps

  // ---------------------------------------------------------------- lexing printed text

  /** A non-empty run of bare-token characters: what the tokenizer's last alternative takes whole. */
  predicate BareText(t: string) {
    t != "" && forall i :: 0 <= i < |t| ==> IsAtomChar(t[i])
  }

  /** What may follow a token in printed text: the end of the line, a space or a `)`. */
  predicate Delimits(rest: string) {
    rest == "" || rest[0] == ' ' || rest[0] == ')'
  }

  lemma {:induction false} AtomRunOf(t: string, rest: string)
    requires forall i :: 0 <= i < |t| ==> IsAtomChar(t[i])
    requires Delimits(rest)
    ensures AtomRun(t + rest) == |t|
    decreases |t|
  {
    if t == [] {
      assert t + rest == rest;
    } else {
      AtomRunOf(t[1..], rest);
      assert (t + rest)[1..] == t[1..] + rest;
    }
  }

  /** The separator before a token in printed text. */
  predicate Gap(sp: string) {
    sp == "" || sp == " "
  }

  lemma GapSkipped(sp: string, s: string)
    requires Gap(sp) && s != [] && !IsSpace(s[0])
    ensures SpaceRun(sp + s) == |sp|
  {
    if sp == " " {
      assert (sp + s)[1..] == s;
    } else {
      assert sp + s == s;
    }
  }

  lemma TokenTaken(t: string, rest: string)
    requires t == "(" || t == ")" || (BareText(t) && Delimits(rest))
    ensures TokenLen(t + rest, false) == |t|
  {
    var s := t + rest;
    assert s[0] == t[0];
    if BareText(t) {
      AtomRunOf(t, rest);
      assert !IsPunct(s[0]) && s[0] != '"' && s[0] != ';' && s[0] != ',';
    }
  }

  /** A gap, then a bare token or a parenthesis, then what follows it: one tokenizer match. */
  lemma LexToken(sp: string, t: string, rest: string)
    requires Gap(sp)
    requires t == "(" || t == ")" || (BareText(t) && Delimits(rest))
    ensures Lex(sp + t + rest) == Lexed(sp, t, rest)
  {
    var line := sp + t + rest;
    var s := t + rest;
    assert line == sp + s;
    assert s[0] == t[0];
    GapSkipped(sp, s);
    TokenTaken(t, rest);
    assert line[..|sp|] == sp;
    assert line[|sp|..] == s;
    assert s[..|t|] == t && s[|t|..] == rest;
  }

  /** With such a line in the buffer, `next_token` hands out that token and keeps the rest. */
  lemma NextTokenOn(p: Port, sp: string, t: string, rest: string)
    requires Gap(sp) && p.line == sp + t + rest
    requires t == "(" || t == ")" || (BareText(t) && Delimits(rest))
    ensures NextTokenF(p) == (Tok(t), p.(line := rest))
  {
    LexToken(sp, t, rest);
    assert p.line != "";
    assert t[0] != ';';
  }

  // ---------------------------------------------------------------- printable data

  /** A symbol that prints as a bare token `atom` reads back as the same symbol. */
  predicate BareSymbol(name: string) {
    BareText(name) && SymbolToken(name) && name != EofName
  }

  /** Data whose printed text `read` can take back: booleans, plainly printed integers, bare symbols and lists of them. */
  predicate Printable(v: Value) {
    match v
    case Bool(_) => true
    case Num(n) => PrintsPlain(n)
    case Sym(name) => BareSymbol(name)
    case List(items) => forall i :: 0 <= i < |items| ==> Printable(items[i])
    case _ => false
  }

  lemma {:induction false} PrintableOk(v: Value)
    requires Printable(v)
    ensures ToString(v).Ok?
    decreases Size(v), 1
  {
    if v.List? {
      ItemsOk(v.items);
    }
  }

  lemma {:induction false} ItemsOk(items: seq<Value>)
    requires forall i :: 0 <= i < |items| ==> Printable(items[i])
    ensures ToStrings(items).Ok?
    decreases Size(List(items)), 0
  {
    if items != [] {
      SizeTail(items);
      PrintableOk(items[0]);
      ItemsOk(items[1..]);
    }
  }

  /** The text `to_string` prints for a printable datum. */
  function Printed(v: Value): (t: string)
    requires Printable(v)
    ensures ToString(v) == Ok(t)
  {
    PrintableOk(v);
    ToString(v).value
  }

  /** The texts of a list's items. */
  function PrintedItems(items: seq<Value>): (ts: seq<string>)
    requires forall i :: 0 <= i < |items| ==> Printable(items[i])
    ensures ToStrings(items) == Ok(ts)
  {
    ItemsOk(items);
    ToStrings(items).value
  }

  lemma NatTextBare(n: nat)
    ensures BareText(NatToString(n))
  {
    var d := NatToString(n);
    forall i | 0 <= i < |d| ensures IsAtomChar(d[i]) {
      assert IsDigit(d[i]);
    }
  }

  /** An integer PHP prints plainly is a bare token ending in a digit. */
  lemma IntTextBare(n: int)
    ensures BareText(IntToString(n)) && IsDigit(IntToString(n)[|IntToString(n)| - 1])
  {
    var m: nat := if n < 0 then -n else n;
    NatTextBare(m);
    var d := NatToString(m);
    var t := IntToString(n);
    if n < 0 {
      assert t == "-" + d;
      forall i | 0 <= i < |t| ensures IsAtomChar(t[i]) {
        if i > 0 { assert t[i] == d[i - 1]; }
      }
    }
    assert t[|t| - 1] == d[|d| - 1];
  }

  lemma BareNotPunct(t: string)
    requires BareText(t)
    ensures !IsQuoteToken(t) && t != "(" && t != ")"
  {
    assert IsAtomChar(t[0]);
  }

  /** A list prints as its items' texts, space-separated, inside parentheses. */
  lemma PrintedList(items: seq<Value>)
    requires Printable(List(items))
    ensures Printed(List(items)) == "(" + Join(" ", PrintedItems(items)) + ")"
  {
  }

  /** A printable boolean, integer or symbol prints as one bare token that `atom` turns back into it. */
  lemma AtomText(v: Value)
    requires Printable(v) && !v.List?
    ensures var t := Printed(v);
      BareText(t) && !IsQuoteToken(t) && t != EofName && Atom(t) == v
  {
    var t := Printed(v);
    AtomOfToString(v);
    if v.Num? {
      IntTextBare(v.n);
      assert t == IntToString(v.n);
      assert EofName[|EofName| - 1] == '>';
    } else if v.Bool? {
      assert t == "#t" || t == "#f";
      assert IsAtomChar('#') && IsAtomChar('t') && IsAtomChar('f');
      assert |t| != |EofName|;
    }
    BareNotPunct(t);
  }

  // ---------------------------------------------------------------- reading printed text

  /** A bare token in the buffer reads as the atom it spells. */
  lemma ReadAtom(p: Port, sp: string, t: string, rest: string)
    requires Gap(sp) && p.line == sp + t + rest && BareText(t) && Delimits(rest)
    requires !IsQuoteToken(t) && t != EofName
    ensures ReadF(p) == (Ok(Atom(t)), p.(line := rest))
  {
    NextTokenOn(p, sp, t, rest);
    BareNotPunct(t);
  }

  /** An opening parenthesis in the buffer starts the loop of `read_ahead` on the rest of the line. */
  lemma ReadOpen(p: Port, sp: string, rest: string)
    requires Gap(sp) && p.line == sp + "(" + rest
    ensures ReadF(p) == ReadListF(p.(line := rest), [])
  {
    NextTokenOn(p, sp, "(", rest);
  }

  /** A closing parenthesis in the buffer ends the list read so far. */
  lemma ReadClose(p: Port, acc: seq<Value>, sp: string, rest: string)
    requires Gap(sp) && p.line == sp + ")" + rest
    ensures ReadListF(p, acc) == (Ok(List(acc)), p.(line := rest))
  {
    NextTokenOn(p, sp, ")", rest);
  }

  /** When the next token starts a datum, the list loop reads that datum and carries on after it. */
  lemma ReadItem(p: Port, acc: seq<Value>, x: Value, q: Port)
    requires NextTokenF(p).0.Tok? && NextTokenF(p).0.text != ")" && NextTokenF(p).0.text != EofName
    requires ReadF(p) == (Ok(x), q)
    ensures ReadListF(p, acc) == ReadListF(q, acc + [x])
  {
  }

  /** The first token of the text printed for v. */
  function Opener(v: Value): string
    requires Printable(v)
  {
    if v.List? then "(" else Printed(v)
  }

  lemma OpenerStarts(v: Value)
    requires Printable(v)
    ensures Opener(v) != ")" && Opener(v) != EofName
  {
    if !v.List? {
      AtomText(v);
      BareNotPunct(Printed(v));
    }
  }

  /** The tokenizer hands out the first token of a printed datum. */
  lemma FirstToken(v: Value, p: Port, sp: string, rest: string)
    requires Printable(v) && Gap(sp) && Delimits(rest) && p.line == sp + Printed(v) + rest
    ensures NextTokenF(p).0 == Tok(Opener(v))
  {
    if v.List? {
      ListLayout(v.items, p.line, sp, rest);
      NextTokenOn(p, sp, "(", "" + Join(" ", PrintedItems(v.items)) + ")" + rest);
    } else {
      AtomText(v);
      NextTokenOn(p, sp, Printed(v), rest);
    }
  }

  /** The list loop reads a printed datum and carries on after it. */
  lemma ReadItemPrinted(v: Value, p: Port, acc: seq<Value>, sp: string, rest: string)
    requires Printable(v) && Gap(sp) && Delimits(rest) && p.line == sp + Printed(v) + rest
    requires ReadF(p) == (Ok(v), p.(line := rest))
    ensures ReadListF(p, acc) == ReadListF(p.(line := rest), acc + [v])
  {
    FirstToken(v, p, sp, rest);
    OpenerStarts(v);
    ReadItem(p, acc, v, p.(line := rest));
  }

  lemma PrintedItemsSplit(items: seq<Value>)
    requires items != [] && forall i :: 0 <= i < |items| ==> Printable(items[i])
    ensures PrintedItems(items) == [Printed(items[0])] + PrintedItems(items[1..])
  {
  }

  /** What follows the first text of a space-joined list. */
  function AfterFirst(ts: seq<string>): string
    requires ts != []
  {
    if |ts| == 1 then "" else " " + Join(" ", ts[1..])
  }

  lemma JoinSplit(ts: seq<string>)
    requires ts != []
    ensures Join(" ", ts) == ts[0] + AfterFirst(ts)
  {
  }

  /** How the printed text of a list splits around its opening parenthesis. */
  lemma ListLayout(items: seq<Value>, line: string, sp: string, rest: string)
    requires Printable(List(items)) && line == sp + Printed(List(items)) + rest
    ensures line == sp + "(" + ("" + Join(" ", PrintedItems(items)) + ")" + rest)
  {
    PrintedList(items);
  }

  /** The next gap after the first item of a list. */
  function NextGap(items: seq<Value>): string {
    if |items| <= 1 then "" else " "
  }

  /** How the printed items of a list split after the first item. */
  lemma TailLayout(items: seq<Value>, line: string, sp: string, rest: string)
    requires items != [] && forall i :: 0 <= i < |items| ==> Printable(items[i])
    requires line == sp + Join(" ", PrintedItems(items)) + ")" + rest
    ensures var more := NextGap(items) + Join(" ", PrintedItems(items[1..])) + ")" + rest;
      line == sp + Printed(items[0]) + more && Delimits(more)
  {
    var ts := PrintedItems(items);
    PrintedItemsSplit(items);
    JoinSplit(ts);
    assert ts[1..] == PrintedItems(items[1..]);
    if |items| == 1 {
      assert AfterFirst(ts) == "" + Join(" ", PrintedItems(items[1..]));
    }
  }

  lemma ReadEmptyTail(acc: seq<Value>, p: Port, sp: string, rest: string)
    requires Gap(sp) && p.line == sp + Join(" ", PrintedItems([])) + ")" + rest
    ensures ReadListF(p, acc) == (Ok(List(acc + [])), p.(line := rest))
  {
    assert p.line == sp + ")" + rest;
    ReadClose(p, acc, sp, rest);
    assert acc + [] == acc;
  }

  /** Reading the text printed for v, followed by whatever may follow a token, gives v back and leaves that rest. */
  lemma {:induction false} ReadPrinted(v: Value, p: Port, sp: string, rest: string)
    requires Printable(v) && Gap(sp) && Delimits(rest) && p.line == sp + Printed(v) + rest
    ensures ReadF(p) == (Ok(v), p.(line := rest))
    decreases Size(v), 1
  {
    if v.List? {
      var inner := "" + Join(" ", PrintedItems(v.items)) + ")" + rest;
      ListLayout(v.items, p.line, sp, rest);
      ReadOpen(p, sp, inner);
      ReadTail(v.items, [], p.(line := inner), "", rest);
      assert [] + v.items == v.items;
    } else {
      AtomText(v);
      ReadAtom(p, sp, Printed(v), rest);
    }
  }

  /** Reading the printed items of a list and its closing parenthesis appends the items to what was read before. */
  lemma {:induction false} ReadTail(items: seq<Value>, acc: seq<Value>, p: Port, sp: string, rest: string)
    requires forall i :: 0 <= i < |items| ==> Printable(items[i])
    requires Gap(sp) && Delimits(rest) && p.line == sp + Join(" ", PrintedItems(items)) + ")" + rest
    ensures ReadListF(p, acc) == (Ok(List(acc + items)), p.(line := rest))
    decreases Size(List(items)), 0
  {
    if items == [] {
      ReadEmptyTail(acc, p, sp, rest);
    } else {
      SizeTail(items);
      var more := NextGap(items) + Join(" ", PrintedItems(items[1..])) + ")" + rest;
      TailLayout(items, p.line, sp, rest);
      ReadPrinted(items[0], p, sp, more);
      ReadItemPrinted(items[0], p, acc, sp, more);
      ReadTail(items[1..], acc + [items[0]], p.(line := more), NextGap(items), rest);
      assert acc + [items[0]] + items[1..] == acc + items;
    }
  }

  // ---------------------------------------------------------------- from a whole text

  lemma {:induction false} JoinNoNewline(ts: seq<string>)
    requires forall i :: 0 <= i < |ts| ==> '\n' !in ts[i]
    ensures '\n' !in Join(" ", ts)
    decreases |ts|
  {
    if |ts| > 1 {
      JoinNoNewline(ts[1..]);
      assert Join(" ", ts) == ts[0] + " " + Join(" ", ts[1..]);
    }
  }

  /** Printed text is one line: it is never empty and holds no newline. */
  lemma {:induction false} OneLine(v: Value)
    requires Printable(v)
    ensures Printed(v) != "" && '\n' !in Printed(v)
    decreases Size(v), 1
  {
    if v.List? {
      PrintedList(v.items);
      ItemsOneLine(v.items);
    } else {
      AtomText(v);
      var t := Printed(v);
      assert forall i :: 0 <= i < |t| ==> t[i] != '\n';
    }
  }

  lemma {:induction false} ItemsOneLine(items: seq<Value>)
    requires forall i :: 0 <= i < |items| ==> Printable(items[i])
    ensures '\n' !in Join(" ", PrintedItems(items))
    decreases Size(List(items)), 0
  {
    var ts := PrintedItems(items);
    forall i | 0 <= i < |ts| ensures '\n' !in ts[i] {
      SizeItem(items, i);
      OneLine(items[i]);
      ItemText(items, i);
    }
    JoinNoNewline(ts);
  }

  lemma {:induction false} SizeItem(items: seq<Value>, i: int)
    requires 0 <= i < |items|
    ensures Size(items[i]) < Size(List(items))
    decreases i
  {
    SizeTail(items);
    if i > 0 {
      SizeItem(items[1..], i - 1);
      assert items[1..][i - 1] == items[i];
    }
  }

  lemma {:induction false} ItemText(items: seq<Value>, i: int)
    requires 0 <= i < |items| && forall j :: 0 <= j < |items| ==> Printable(items[j])
    ensures PrintedItems(items)[i] == Printed(items[i])
    decreases i
  {
    PrintedItemsSplit(items);
    if i > 0 {
      ItemText(items[1..], i - 1);
      assert items[1..][i - 1] == items[i];
    }
  }

  lemma {:induction false} ExplodeWhole(sep: char, s: string)
    requires sep !in s
    ensures Explode(sep, s) == [s]
    decreases |s|
  {
    if s != [] {
      ExplodeWhole(sep, s[1..]);
      assert s[1..] + [] == s[1..];
      assert [s[0]] + s[1..] == s;
    }
  }

  /** A port over a one-line text first reads that line into its buffer. */
  lemma ReadRefills(text: string)
    requires text != ""
    ensures ReadF(Port([text], 0, "")) == ReadF(Port([text], 1, text))
  {
    assert NextTokenF(Port([text], 0, "")) == NextTokenF(Port([text], 1, text));
  }

  /** `read` on a port over the text `to_string` printed for a printable datum gives the datum back and uses up the text. */
  lemma ReadBack(v: Value)
    requires Printable(v)
    ensures ReadF(PortOf(Printed(v))) == (Ok(v), Port([Printed(v)], 1, ""))
  {
    var text := Printed(v);
    OneLine(v);
    ExplodeWhole('\n', text);
    ReadRefills(text);
    assert text == "" + text + "";
    ReadPrinted(v, Port([text], 1, text), "", "");
  }

  /**
   * Strings fall outside the round trip: `atom` turns only a lone `"` into a
   * string, so the quoted text printed for a string comes back as a symbol.
   */
  lemma StringAtomIsSymbol()
    ensures ToString(Str("hi")) == Ok("\"hi\"")
    ensures Atom("\"hi\"") == Sym("\"hi\"")
  {
    assert AddSlashes("hi") == "hi" by {
      assert AddSlashes("i") == "i" by {
        assert "i"[1..] == [];
      }
      assert "hi"[1..] == "i";
    }
    assert "\"" + "hi" + "\"" == "\"hi\"";
    QuotedNotNumeric("\"hi\"");
  }

  lemma QuotedNotNumeric(s: string)
    requires |s| >= 2 && s[0] == '"' && s[|s| - 1] == '"'
    ensures !IsNumeric(s)
  {
    assert LeadingSpaces(s) == 0;
    assert TrailingSpaces(s) == 0;
    assert s[..|s|] == s && s[0..] == s;
    assert NumericCore(s) == s;
    assert Unsigned(s) == s;
    assert DigitRun(s) == 0;
  }
}
