/** Properties of lis.php's reader: `tokenize`, `read_from`, `atom` and `to_string`. */
module LisReaderProps {
  import opened PhpText
  import opened LisValues
  import opened LisReader

  // ---------------------------------------------------------------- text shapes

  /** Every parenthesis stands between spaces or at an end of the text. */
  predicate Spaced(s: string) {
    forall i {:trigger IsParen(s[i])} :: 0 <= i < |s| && IsParen(s[i]) ==>
      (i == 0 || s[i - 1] == ' ') && (i == |s| - 1 || s[i + 1] == ' ')
  }

  predicate NoTab(s: string) {
    forall i :: 0 <= i < |s| ==> s[i] != '\t'
  }

  /** Every parenthesis has a space on both sides. */
  predicate StrictlySpaced(r: string) {
    forall i {:trigger IsParen(r[i])} :: 0 <= i < |r| && IsParen(r[i]) ==> 0 < i < |r| - 1 && r[i - 1] == ' ' && r[i + 1] == ' '
  }

  /** Padding puts a space on both sides of every parenthesis, inside the text. */
  lemma {:induction false} PadParensSpaced(s: string)
    ensures StrictlySpaced(PadParens(s))
  {
    if s != [] {
      PadParensSpaced(s[1..]);
      var rest := PadParens(s[1..]);
      var r := PadParens(s);
      var k := if IsParen(s[0]) then 3 else 1;
      if IsParen(s[0]) {
        assert r == [' ', s[0], ' '] + rest;
      } else {
        assert r == [s[0]] + rest;
      }
      forall i | 0 <= i < |r| && IsParen(r[i])
        ensures 0 < i < |r| - 1 && r[i - 1] == ' ' && r[i + 1] == ' '
      {
        if i >= k {
          var j := i - k;
          assert r[i] == rest[j];
          assert 0 < j < |rest| - 1 && rest[j - 1] == ' ' && rest[j + 1] == ' ';
          assert r[i - 1] == rest[j - 1] && r[i + 1] == rest[j + 1];
        } else {
          assert IsParen(s[0]) && i == 1;
        }
      }
    }
  }

  lemma SpacedSuffix(s: string, k: nat)
    requires Spaced(s) && k <= |s|
    ensures Spaced(s[k..])
  {
    var t := s[k..];
    forall i | 0 <= i < |t| && IsParen(t[i])
      ensures (i == 0 || t[i - 1] == ' ') && (i == |t| - 1 || t[i + 1] == ' ')
    {
      assert t[i] == s[k + i];
    }
  }

  /** Collapsing blanks keeps every parenthesis between spaces. */
  lemma {:induction false} CollapseKeepsSpaced(s: string)
    requires Spaced(s)
    ensures Spaced(CollapseBlanks(s))
    decreases |s|
  {
    if s != [] {
      var r := CollapseBlanks(s);
      if IsBlank(s[0]) {
        var k := BlankRun(s);
        var tail := s[k..];
        SpacedSuffix(s, k);
        CollapseKeepsSpaced(tail);
        var rest := CollapseBlanks(tail);
        assert r == [' '] + rest;
        forall i | 0 <= i < |r| && IsParen(r[i])
          ensures (i == 0 || r[i - 1] == ' ') && (i == |r| - 1 || r[i + 1] == ' ')
        {
          assert i > 0 && r[i] == rest[i - 1];
        }
      } else {
        var tail := s[1..];
        SpacedSuffix(s, 1);
        CollapseKeepsSpaced(tail);
        var rest := CollapseBlanks(tail);
        assert r == [s[0]] + rest;
        forall i | 0 <= i < |r| && IsParen(r[i])
          ensures (i == 0 || r[i - 1] == ' ') && (i == |r| - 1 || r[i + 1] == ' ')
        {
          if i == 0 {
            if |s| > 1 {
              assert s[1] == ' ' && IsBlank(tail[0]);
            }
          } else {
            assert r[i] == rest[i - 1];
          }
        }
      }
    }
  }

  /** `trim` takes a slice of its argument. */
  lemma TrimIsSlice(s: string) returns (a: nat)
    ensures a + |Trim(s)| <= |s| && Trim(s) == s[a..a + |Trim(s)|]
  {
    var l := TrimLeft(s);
    var r := TrimRight(l);
    a := |s| - |l|;
  }

  lemma SliceSpaced(s: string, a: nat, b: nat)
    requires a <= b <= |s| && Spaced(s)
    ensures Spaced(s[a..b])
  {
    var t := s[a..b];
    assert forall i :: 0 <= i < |t| ==> t[i] == s[a + i];
  }

  lemma SliceSingleSpaced(s: string, a: nat, b: nat)
    requires a <= b <= |s| && SingleSpaced(s)
    ensures SingleSpaced(s[a..b])
  {
    var t := s[a..b];
    assert forall i :: 0 <= i < |t| ==> t[i] == s[a + i];
  }

  lemma SliceNoTab(s: string, a: nat, b: nat)
    requires a <= b <= |s| && NoTab(s)
    ensures NoTab(s[a..b])
  {
    var t := s[a..b];
    assert forall i :: 0 <= i < |t| ==> t[i] == s[a + i];
  }

  lemma PaddedIsSpaced(s: string)
    ensures Spaced(PadParens(s))
  {
    PadParensSpaced(s);
  }

  lemma CollapsedShape(p: string)
    requires Spaced(p)
    ensures Spaced(CollapseBlanks(p)) && SingleSpaced(CollapseBlanks(p)) && NoTab(CollapseBlanks(p))
  {
    CollapseKeepsSpaced(p);
  }

  lemma TrimmedShape(c: string)
    requires Spaced(c) && SingleSpaced(c) && NoTab(c)
    ensures Normalized(Trim(c))
  {
    var n := Trim(c);
    var a := TrimIsSlice(c);
    assert Spaced(n) by {
      SliceSpaced(c, a, a + |n|);
    }
    assert SingleSpaced(n) by {
      SliceSingleSpaced(c, a, a + |n|);
    }
    assert NoTab(n) by {
      SliceNoTab(c, a, a + |n|);
    }
    assert n != [] ==> !IsTrimmed(n[0]) && !IsTrimmed(n[|n| - 1]);
  }

  /** Spaced parentheses, single spaces, no tab, and no space at either end. */
  ghost predicate Normalized(n: string) {
    Spaced(n) && SingleSpaced(n) && NoTab(n) && (n != [] ==> n[0] != ' ' && n[|n| - 1] != ' ')
  }

  /** The text `tokenize` splits is normalized. */
  lemma NormalizedShape(s: string)
    ensures Normalized(Trim(CollapseBlanks(PadParens(s))))
  {
    var p := PadParens(s);
    PaddedIsSpaced(s);
    CollapsedShape(p);
    TrimmedShape(CollapseBlanks(p));
  }

  // ---------------------------------------------------------------- explode on normalized text

  /** The first piece of `explode(' ', s)` is the text before the first space. */
  lemma {:induction false} ExplodeHead(s: string)
    ensures |Explode(' ', s)[0]| <= |s| && Explode(' ', s)[0] == s[..|Explode(' ', s)[0]|]
    ensures |Explode(' ', s)[0]| < |s| ==> s[|Explode(' ', s)[0]|] == ' '
  {
    if s != [] && s[0] != ' ' {
      ExplodeHead(s[1..]);
    }
  }

  /** Without doubled spaces or a trailing space, only the first piece can be empty. */
  lemma {:induction false} ExplodeNoEmptyTail(s: string)
    requires SingleSpaced(s) && (s == [] || s[|s| - 1] != ' ')
    ensures forall i :: 1 <= i < |Explode(' ', s)| ==> Explode(' ', s)[i] != ""
    ensures s != [] && s[0] != ' ' ==> Explode(' ', s)[0] != ""
  {
    if s != [] {
      var t := s[1..];
      assert SingleSpaced(t) by {
        assert forall i :: 0 <= i < |t| ==> t[i] == s[i + 1];
      }
      ExplodeNoEmptyTail(t);
      var rest := Explode(' ', t);
      if s[0] == ' ' {
        assert t != [] && t[0] == s[1] && s[1] != ' ';
        assert Explode(' ', s) == [""] + rest;
      }
    }
  }

  /** A piece holding a parenthesis is that parenthesis alone. */
  predicate ParensAlone(parts: seq<string>) {
    forall i, j :: 0 <= i < |parts| && 0 <= j < |parts[i]| && IsParen(parts[i][j]) ==> parts[i] == [parts[i][j]]
  }

  /** In spaced text, a piece holding a parenthesis is that parenthesis alone. */
  lemma {:induction false} ExplodeParens(s: string)
    requires Spaced(s)
    ensures ParensAlone(Explode(' ', s))
  {
    if s != [] {
      var t := s[1..];
      SpacedSuffix(s, 1);
      ExplodeParens(t);
      ExplodeHead(t);
      var rest := Explode(' ', t);
      var parts := Explode(' ', s);
      if s[0] == ' ' {
        assert parts == [""] + rest;
        assert forall i :: 1 <= i < |parts| ==> parts[i] == rest[i - 1];
      } else {
        assert parts == [[s[0]] + rest[0]] + rest[1..];
        assert forall i :: 1 <= i < |parts| ==> parts[i] == rest[i];
        forall j | 0 <= j < |parts[0]| && IsParen(parts[0][j])
          ensures parts[0] == [parts[0][j]]
        {
          var h := rest[0];
          if IsParen(s[0]) {
            assert |s| == 1 || s[1] == ' ';
            assert h == [];
          } else {
          }
        }
      }
    }
  }

  // ---------------------------------------------------------------- tokenize

  /**
   * `tokenize` of a text made only of the characters `trim` strips is one
   * empty token; any other text gives no empty token at all.
   */
  lemma TokenizeNoEmptyToken(s: string)
    ensures AllTrimmed(s) ==> Tokenize(s) == [""]
    ensures !AllTrimmed(s) ==> forall i :: 0 <= i < |Tokenize(s)| ==> Tokenize(s)[i] != ""
  {
    var p := PadParens(s);
    var c := CollapseBlanks(p);
    NormalizedShape(s);
    NormalizedNoEmptyPiece(Trim(c));
    PadAllTrimmed(s);
    CollapseAllTrimmed(p);
    TrimEmpty(c);
  }

  /** Splitting normalized text gives one empty piece when the text is empty, and no empty piece otherwise. */
  lemma NormalizedNoEmptyPiece(n: string)
    requires Normalized(n)
    ensures n == "" ==> Explode(' ', n) == [""]
    ensures n != "" ==> forall i :: 0 <= i < |Explode(' ', n)| ==> Explode(' ', n)[i] != ""
  {
    ExplodeNoEmptyTail(n);
  }

  /** Every character is one that `trim` strips. */
  predicate AllTrimmed(s: string) {
    forall i :: 0 <= i < |s| ==> IsTrimmed(s[i])
  }

  lemma AllTrimmedSplit(s: string, k: nat)
    requires k <= |s|
    ensures AllTrimmed(s) <==> AllTrimmed(s[..k]) && AllTrimmed(s[k..])
  {
    assert forall i :: k <= i < |s| ==> s[i] == s[k..][i - k];
  }

  /** `trim` leaves nothing exactly when every character is stripped. */
  lemma TrimEmpty(s: string)
    ensures Trim(s) == "" <==> AllTrimmed(s)
  {
    TrimLeftEmpty(s);
    TrimRightEmpty(TrimLeft(s));
  }

  lemma {:induction false} TrimLeftEmpty(s: string)
    ensures TrimLeft(s) == "" <==> AllTrimmed(s)
  {
    if s != [] && IsTrimmed(s[0]) {
      TrimLeftEmpty(s[1..]);
      AllTrimmedSplit(s, 1);
    }
  }

  lemma {:induction false} TrimRightEmpty(s: string)
    ensures TrimRight(s) == "" <==> AllTrimmed(s)
  {
    if s != [] && IsTrimmed(s[|s| - 1]) {
      TrimRightEmpty(s[..|s| - 1]);
      AllTrimmedSplit(s, |s| - 1);
    }
  }

  /** Collapsing blanks keeps a text made only of stripped characters so, and any other text not. */
  lemma {:induction false} CollapseAllTrimmed(s: string)
    ensures AllTrimmed(CollapseBlanks(s)) <==> AllTrimmed(s)
    decreases |s|
  {
    if s != [] {
      var k := if IsBlank(s[0]) then BlankRun(s) else 1;
      CollapseAllTrimmed(s[k..]);
      AllTrimmedSplit(s, k);
      AllTrimmedSplit(CollapseBlanks(s), 1);
      assert CollapseBlanks(s)[1..] == CollapseBlanks(s[k..]);
    }
  }

  /** Padding parentheses keeps a text made only of stripped characters so, and any other text not. */
  lemma {:induction false} PadAllTrimmed(s: string)
    ensures AllTrimmed(PadParens(s)) <==> AllTrimmed(s)
  {
    if s != [] {
      PadAllTrimmed(s[1..]);
      AllTrimmedSplit(s, 1);
      var h := if IsParen(s[0]) then [' ', s[0], ' '] else [s[0]];
      AllTrimmedSplit(PadParens(s), |h|);
      assert PadParens(s)[..|h|] == h && PadParens(s)[|h|..] == PadParens(s[1..]);
      assert AllTrimmed(h) <==> IsTrimmed(s[0]) by {
        assert h[|h| / 2] == s[0];
      }
      assert AllTrimmed(s[..1]) <==> IsTrimmed(s[0]) by {
        assert s[..1][0] == s[0];
      }
    }
  }

  /** No token holds a space or a tab. */
  lemma TokenizeNoBlank(s: string)
    ensures forall i, j :: 0 <= i < |Tokenize(s)| && 0 <= j < |Tokenize(s)[i]| ==> !IsBlank(Tokenize(s)[i][j])
  {
    var n := Trim(CollapseBlanks(PadParens(s)));
    assert NoTab(n) by {
      NormalizedShape(s);
    }
    ExplodeKeepsNoTab(n);
    var ts := Explode(' ', n);
    assert Tokenize(s) == ts;
    forall i, j | 0 <= i < |ts| && 0 <= j < |ts[i]|
      ensures !IsBlank(ts[i][j])
    {
      assert NoTab(ts[i]) && ' ' !in ts[i];
      assert ts[i][j] in ts[i];
    }
  }

  predicate NoTabIn(parts: seq<string>) {
    forall i :: 0 <= i < |parts| ==> NoTab(parts[i])
  }

  /** Splitting a text without tabs gives pieces without tabs. */
  lemma {:induction false} ExplodeKeepsNoTab(s: string)
    requires NoTab(s)
    ensures NoTabIn(Explode(' ', s))
  {
    if s != [] {
      var t := s[1..];
      assert NoTab(t) by {
        assert forall i :: 0 <= i < |t| ==> t[i] == s[i + 1];
      }
      ExplodeKeepsNoTab(t);
      var rest := Explode(' ', t);
      var parts := Explode(' ', s);
      if s[0] == ' ' {
        assert parts == [""] + rest;
        assert forall i :: 1 <= i < |parts| ==> parts[i] == rest[i - 1];
      } else {
        var h := [s[0]] + rest[0];
        assert parts == [h] + rest[1..];
        assert forall i :: 1 <= i < |parts| ==> parts[i] == rest[i];
        assert NoTab(rest[0]);
        assert forall j :: 1 <= j < |h| ==> h[j] == rest[0][j - 1];
        assert NoTab(h);
      }
    }
  }

  /** Each parenthesis is a token of its own. */
  lemma TokenizeParens(s: string)
    ensures ParensAlone(Tokenize(s))
  {
    NormalizedShape(s);
    ExplodeParens(Trim(CollapseBlanks(PadParens(s))));
    assert Tokenize(s) == Explode(' ', Trim(CollapseBlanks(PadParens(s))));
  }

  // The four stages of `tokenize` on the text `(a<newline>b)`.

  lemma PadExample()
    ensures PadParens("(a\nb)") == " ( a\nb ) "
  {
    assert ")"[1..] == "";
    assert PadParens(")") == " ) ";
    assert "b)"[1..] == ")";
    assert PadParens("b)") == "b ) ";
    assert "\nb)"[1..] == "b)";
    assert PadParens("\nb)") == "\nb ) ";
    assert "a\nb)"[1..] == "\nb)";
    assert PadParens("a\nb)") == "a\nb ) ";
    assert "(a\nb)"[1..] == "a\nb)";
    assert PadParens("(a\nb)") == " ( a\nb ) ";
  }

  /** Text with single spaces and no tab is left as it is by the blank collapsing. */
  lemma {:induction false} CollapseFixed(s: string)
    requires SingleSpaced(s) && NoTab(s)
    ensures CollapseBlanks(s) == s
    decreases |s|
  {
    if s != [] {
      SliceSingleSpaced(s, 1, |s|);
      SliceNoTab(s, 1, |s|);
      CollapseFixed(s[1..]);
      if IsBlank(s[0]) {
        assert |s| > 1 ==> !IsBlank(s[1]);
        assert BlankRun(s) == 1 by {
          if |s| > 1 { assert BlankRun(s[1..]) == 0; }
        }
        assert s == [' '] + s[1..];
      } else {
        assert s == [s[0]] + s[1..];
      }
    }
  }

  lemma CollapseExample()
    ensures CollapseBlanks(" ( a\nb ) ") == " ( a\nb ) "
  {
    var s := " ( a\nb ) ";
    assert forall i :: 0 <= i < |s| - 1 ==> !(s[i] == ' ' && s[i + 1] == ' ');
    CollapseFixed(s);
  }

  lemma TrimExample()
    ensures Trim(" ( a\nb ) ") == "( a\nb )"
  {
    TrimLeftExample();
    TrimRightExample();
  }

  lemma TrimLeftExample()
    ensures TrimLeft(" ( a\nb ) ") == "( a\nb ) "
  {
    var s := " ( a\nb ) ";
    assert s[0] == ' ' && s[1..] == "( a\nb ) ";
    assert TrimLeft(s) == TrimLeft(s[1..]);
    assert "( a\nb ) "[0] == '(';
    assert TrimLeft("( a\nb ) ") == "( a\nb ) ";
  }

  lemma TrimRightExample()
    ensures TrimRight("( a\nb ) ") == "( a\nb )"
  {
    assert "( a\nb ) "[..7] == "( a\nb )";
    assert TrimRight("( a\nb )") == "( a\nb )";
  }

  lemma ExplodeExample()
    ensures Explode(' ', "( a\nb )") == ["(", "a\nb", ")"]
  {
    assert ")"[1..] == "";
    assert [')'] + "" == ")";
    assert [""][1..] == [];
    assert Explode(' ', ")") == [")"];
    assert " )"[1..] == ")";
    assert Explode(' ', " )") == ["", ")"];
    assert "b )"[1..] == " )";
    assert ['b'] + "" == "b";
    assert ["", ")"][1..] == [")"];
    assert Explode(' ', "b )") == ["b", ")"];
    assert "\nb )"[1..] == "b )";
    assert ['\n'] + "b" == "\nb";
    assert ["b", ")"][1..] == [")"];
    assert Explode(' ', "\nb )") == ["\nb", ")"];
    assert "a\nb )"[1..] == "\nb )";
    assert ['a'] + "\nb" == "a\nb";
    assert ["\nb", ")"][1..] == [")"];
    assert Explode(' ', "a\nb )") == ["a\nb", ")"];
    assert " a\nb )"[1..] == "a\nb )";
    assert Explode(' ', " a\nb )") == ["", "a\nb", ")"];
    assert "( a\nb )"[1..] == " a\nb )";
    assert ['('] + "" == "(";
    assert ["", "a\nb", ")"][1..] == ["a\nb", ")"];
    assert Explode(' ', "( a\nb )") == ["(", "a\nb", ")"];
  }

  /** Only spaces and tabs are collapsed: a newline stays inside its token. */
  lemma TokenizeKeepsNewline()
    ensures Tokenize("(a\nb)") == ["(", "a\nb", ")"]
  {
    PadExample();
    CollapseExample();
    TrimExample();
    ExplodeExample();
  }

  // ---------------------------------------------------------------- read_from

  /** An empty token array: 'unexpected EOF while reading', and the array stays empty. */
  lemma ReadFromEmpty()
    ensures ReadFromF([]) == (Err(UnexpectedEof), [])
  {
  }

  /** A leading `)`: 'unexpected )', with the `)` already shifted off. */
  lemma ReadFromClose(rest: seq<string>)
    ensures ReadFromF([")"] + rest) == (Err(UnexpectedClose), rest)
  {
    assert ([")"] + rest)[1..] == rest;
  }

  /** A list never closed runs out of tokens: 'unexpected EOF while reading', with every token consumed. */
  lemma {:induction false} ReadListUnclosed(ts: seq<string>, acc: seq<Value>)
    requires forall i :: 0 <= i < |ts| ==> ts[i] != "(" && ts[i] != ")"
    ensures ReadListF(ts, acc) == (Err(UnexpectedEof), [])
    decreases |ts|
  {
    if ts != [] {
      assert ReadFromF(ts) == (Ok(Atom(ts[0])), ts[1..]);
      ReadListUnclosed(ts[1..], acc + [Atom(ts[0])]);
    }
  }

  /**
   * `parse` of a text made only of the characters `trim` strips reads the one
   * empty token `explode` leaves, which `atom` makes a symbol with no name.
   */
  lemma ParseBlank(s: string)
    requires AllTrimmed(s)
    ensures Parse(s) == Ok(Sym(""))
  {
    TokenizeNoEmptyToken(s);
    assert NumericCore("") == "" by {
      assert LeadingSpaces("") == 0 && TrailingSpaces("") == 0;
    }
    assert DigitRun("") == 0;
    assert ReadFromF([""]) == (Ok(Atom("")), []);
  }

  lemma ParensAreNotNumeric()
    ensures !IsNumeric("(") && !IsNumeric(")")
  {
    assert NumericCore("(") == "(" by {
      assert LeadingSpaces("(") == 0 && TrailingSpaces("(") == 0;
    }
    assert NumericCore(")") == ")" by {
      assert LeadingSpaces(")") == 0 && TrailingSpaces(")") == 0;
    }
    assert DigitRun("(") == 0 && DigitRun(")") == 0;
  }

  /** The data `read_from` can give back exactly: symbols that are not numbers or parentheses, numbers, and lists of them. */
  predicate Readable(v: Value) {
    match v
    case Num(_) => true
    case Real(t) => IsNumeric(t) && !IsIntegerText(t)
    case Sym(name) => !IsNumeric(name) && name != "(" && name != ")"
    case List(items) => forall i :: 0 <= i < |items| ==> Readable(items[i])
    case _ => false
  }

  /**
   * The tokens of a datum: an atom is one token, a list its items' tokens
   * inside `(` and `)`; values the reader never produces have none.
   */
  function TokensOf(v: Value): seq<string> {
    match v
    case Num(n) => [IntToString(n)]
    case Real(t) => [t]
    case Sym(name) => [name]
    case List(items) => ["("] + TokensOfAll(items) + [")"]
    case _ => []
  }

  function TokensOfAll(items: seq<Value>): seq<string> {
    if items == [] then [] else TokensOf(items[0]) + TokensOfAll(items[1..])
  }

  /** The tokens of a readable datum are never empty and never start with `)`. */
  lemma TokensOfStart(v: Value)
    requires Readable(v)
    ensures TokensOf(v) != [] && TokensOf(v)[0] != ")"
  {
    ParensAreNotNumeric();
    if v.Num? {
      IntToStringReadsBack(v.n);
    }
  }

  /**
   * `read_from` shifts off exactly the tokens of one datum, whatever follows
   * them, and gives that datum back.
   */
  lemma {:induction false} ReadFromTokensOf(v: Value, rest: seq<string>)
    requires Readable(v)
    ensures ReadFromF(TokensOf(v) + rest) == (Ok(v), rest)
    decreases v, 3
  {
    var ts := TokensOf(v) + rest;
    match v
    case Num(n) =>
      IntToStringReadsBack(n);
      ParensAreNotNumeric();
      assert ts[0] == IntToString(n) && ts[1..] == rest;
    case Real(t) =>
      ParensAreNotNumeric();
      assert ts[0] == t && ts[1..] == rest;
    case Sym(name) =>
      assert ts[0] == name && ts[1..] == rest;
    case List(items) =>
      assert ts[1..] == TokensOfAll(items) + [")"] + rest;
      ReadListTokensOf(items, [], rest);
      assert [] + items == items;
  }

  /** A turn of the list loop that reads an item goes on after it with the item appended. */
  lemma ReadListStep(ts: seq<string>, acc: seq<Value>, x: Value, tail: seq<string>)
    requires ts != [] && ts[0] != ")" && ReadFromF(ts) == (Ok(x), tail)
    ensures ReadListF(ts, acc) == ReadListF(tail, acc + [x])
  {
  }

  /** The tokens of a non-empty item list and its `)` start with the tokens of the first item. */
  lemma TokensOfAllFirst(items: seq<Value>, rest: seq<string>)
    requires items != [] && forall i :: 0 <= i < |items| ==> Readable(items[i])
    ensures TokensOfAll(items) + [")"] + rest == TokensOf(items[0]) + (TokensOfAll(items[1..]) + [")"] + rest)
  {
    Regroup(TokensOf(items[0]), TokensOfAll(items[1..]), [")"], rest);
  }

  lemma Regroup<T>(a: seq<T>, b: seq<T>, c: seq<T>, d: seq<T>)
    ensures a + b + c + d == a + (b + c + d)
  {
  }

  /** The list loop reads one readable item off the front of its tokens. */
  lemma ReadListItem(x: Value, acc: seq<Value>, tail: seq<string>)
    requires Readable(x)
    ensures ReadListF(TokensOf(x) + tail, acc) == ReadListF(tail, acc + [x])
    decreases x, 4
  {
    ReadFromTokensOf(x, tail);
    TokensOfStart(x);
    ReadListStep(TokensOf(x) + tail, acc, x, tail);
  }

  /** One turn of the list loop on the tokens of a non-empty item list, given what the rest of the list reads to. */
  lemma ReadListFirst(items: seq<Value>, acc: seq<Value>, rest: seq<string>)
    requires items != [] && forall i :: 0 <= i < |items| ==> Readable(items[i])
    requires ReadListF(TokensOfAll(items[1..]) + [")"] + rest, acc + [items[0]]) == (Ok(List(acc + [items[0]] + items[1..])), rest)
    ensures ReadListF(TokensOfAll(items) + [")"] + rest, acc) == (Ok(List(acc + items)), rest)
    decreases items, 1
  {
    TokensOfAllFirst(items, rest);
    ReadListItem(items[0], acc, TokensOfAll(items[1..]) + [")"] + rest);
    AppendFirst(acc, items);
  }

  lemma AppendFirst<T>(acc: seq<T>, s: seq<T>)
    requires s != []
    ensures acc + [s[0]] + s[1..] == acc + s
  {
    assert [s[0]] + s[1..] == s;
  }

  lemma {:induction false} ReadListTokensOf(items: seq<Value>, acc: seq<Value>, rest: seq<string>)
    requires forall i :: 0 <= i < |items| ==> Readable(items[i])
    ensures ReadListF(TokensOfAll(items) + [")"] + rest, acc) == (Ok(List(acc + items)), rest)
    decreases items, 2
  {
    if items == [] {
      assert TokensOfAll(items) + [")"] + rest == [")"] + rest;
      assert acc + items == acc;
    } else {
      ReadListTokensOf(items[1..], acc + [items[0]], rest);
      ReadListFirst(items, acc, rest);
    }
  }

  // ---------------------------------------------------------------- atom and to_string

  /** A numeric token becomes a number; integer text gives the integer it spells. */
  lemma AtomOfNumber(t: string)
    requires IsNumeric(t)
    ensures Atom(t).Num? || Atom(t) == Real(t)
    ensures IsIntegerText(t) ==> Atom(t) == Num(IntegerValue(t))
  {
  }

  /** An integer PHP prints as plain digits reads back as the same number; a wider one cannot be printed by the model. */
  lemma AtomOfPrintedInteger(n: int)
    ensures ToString(Num(n)).Ok? <==> PrintsPlain(n)
    ensures PrintsPlain(n) ==> Atom(ToString(Num(n)).value) == Num(n)
  {
    IntToStringReadsBack(n);
  }

  /** Any other token becomes a symbol that prints as the token. */
  lemma SymbolPrintsBack(t: string)
    requires !IsNumeric(t)
    ensures Atom(t) == Sym(t) && ToString(Atom(t)) == Ok(t)
  {
  }

  /** `(testing 1 (2))` prints with single spaces between items, nested lists in parentheses. */
  lemma ToStringNested()
    ensures ToString(List([Sym("testing"), Num(1), List([Num(2)])])) == Ok("(testing 1 (2))")
  {
    var inner := [Num(2)];
    assert ToString(Num(2)) == Ok("2") && ToString(Num(1)) == Ok("1");
    ToStringsAll(inner, ["2"]);
    assert Join(" ", ["2"]) == "2";
    assert "(" + "2" + ")" == "(2)";
    assert ToString(List(inner)) == Ok("(2)");
    var items := [Sym("testing"), Num(1), List(inner)];
    var texts := ["testing", "1", "(2)"];
    ToStringsAll(items, texts);
    assert texts[1..] == ["1", "(2)"] && texts[1..][1..] == ["(2)"];
    assert Join(" ", ["(2)"]) == "(2)";
    assert "1" + " " + "(2)" == "1 (2)";
    assert Join(" ", texts[1..]) == "1 (2)";
    assert "testing" + " " + "1 (2)" == "testing 1 (2)";
    assert Join(" ", texts) == "testing 1 (2)";
    assert "(" + "testing 1 (2)" + ")" == "(testing 1 (2))";
    assert ToString(List(items)) == Ok("(" + Join(" ", texts) + ")");
  }

  /** When every item prints, printing the items gives their texts in order. */
  lemma {:induction false} ToStringsAll(items: seq<Value>, texts: seq<string>)
    requires PrintsAs(items, texts)
    ensures ToStrings(items) == Ok(texts)
  {
    if items != [] {
      assert PrintsAs(items[1..], texts[1..]) by {
        forall i | 0 <= i < |items[1..]|
          ensures ToString(items[1..][i]) == Ok(texts[1..][i])
        {
          assert items[1..][i] == items[i + 1] && texts[1..][i] == texts[i + 1];
        }
      }
      ToStringsAll(items[1..], texts[1..]);
      assert ToString(items[0]) == Ok(texts[0]);
      assert texts == [texts[0]] + texts[1..];
    }
  }

  /** Each item prints as the text at the same place. */
  predicate PrintsAs(items: seq<Value>, texts: seq<string>) {
    |texts| == |items| && forall i :: 0 <= i < |items| ==> ToString(items[i]) == Ok(texts[i])
  }


  /** A PHP closure inside a list cannot be printed, so neither can the list. */
  lemma ToStringOfClosureFails(items: seq<Value>, i: nat)
    requires i < |items| && items[i].Prim?
    requires forall k :: 0 <= k < i ==> ToString(items[k]).Ok?
    ensures ToString(List(items)) == Err(HostError)
  {
    ToStringsFailsAt(items, i);
  }

  lemma {:induction false} ToStringsFailsAt(items: seq<Value>, i: nat)
    requires i < |items| && items[i].Prim?
    requires forall k :: 0 <= k < i ==> ToString(items[k]).Ok?
    ensures ToStrings(items) == Err(HostError)
  {
    if i > 0 {
      ToStringsFailsAt(items[1..], i - 1);
    }
  }
}
