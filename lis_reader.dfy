/**
 * The reader and printer of `lis.php`: `tokenize` pads parentheses and
 * splits on spaces, `read_from` shifts tokens off a shared array, `atom`
 * turns a token into a number or a symbol, and `to_string` prints values.
 */
module LisReader {
  import opened PhpText
  import opened LisValues

  // ---------------------------------------------------------------- tokenize

  predicate IsParen(c: char) { c == '(' || c == ')' }

  /** `str_replace(['(', ')'], [' ( ', ' ) '], s)`. */
  function PadParens(s: string): (r: string)
    ensures |r| >= |s|
  {
    if s == [] then ""
    else (if IsParen(s[0]) then [' ', s[0], ' '] else [s[0]]) + PadParens(s[1..])
  }

  /** `tokenize`: pad the parentheses, collapse blanks, trim, and split on single spaces. */
  function Tokenize(s: string): seq<string> {
    Explode(' ', Trim(CollapseBlanks(PadParens(s))))
  }

  // ---------------------------------------------------------------- atom

  /** `atom`: a numeric token becomes a number, any other token a symbol of the same text. */
  function Atom(token: string): (v: Value)
    ensures v.Sym? <==> !IsNumeric(token)
    ensures v.Sym? ==> v.name == token
  {
    if IsNumeric(token) then
      (if IsIntegerText(token) then Num(IntegerValue(token)) else Real(token))
    else Sym(token)
  }

  // ---------------------------------------------------------------- read_from

  /**
   * `read_from` on the token array: the datum read and the tokens left in the
   * array. Running out of tokens leaves the array as it is; a `)` where a
   * datum should start is shifted off before the error is raised.
   */
  function ReadFromF(ts: seq<string>): (r: (Result<Value>, seq<string>))
    ensures IsSuffix(r.1, ts)
    ensures ts == [] ==> r == (Err(UnexpectedEof), ts)
    ensures ts != [] ==> |r.1| < |ts|
    decreases |ts|, 0
  {
    if ts == [] then (Err(UnexpectedEof), ts)
    else if ts[0] == "(" then ReadListF(ts[1..], [])
    else if ts[0] == ")" then (Err(UnexpectedClose), ts[1..])
    else (Ok(Atom(ts[0])), ts[1..])
  }

  /** The `while($tokens[0] != ')')` loop of `read_from`, with the items read so far. */
  function ReadListF(ts: seq<string>, acc: seq<Value>): (r: (Result<Value>, seq<string>))
    ensures IsSuffix(r.1, ts)
    decreases |ts|, 1
  {
    if ts == [] then (Err(UnexpectedEof), ts)
    else if ts[0] == ")" then (Ok(List(acc)), ts[1..])
    else
      var first := ReadFromF(ts);
      if first.0.Err? then first
      else
        var r := ReadListF(first.1, acc + [first.0.value]);
        SuffixOfSuffix(ts, first.1, r.1);
        r
  }

  /** b is what is left of a after shifting some tokens off its front. */
  predicate IsSuffix(b: seq<string>, a: seq<string>) {
    |b| <= |a| && b == a[|a| - |b|..]
  }

  lemma SuffixOfSuffix(a: seq<string>, b: seq<string>, c: seq<string>)
    requires IsSuffix(b, a) && IsSuffix(c, b)
    ensures IsSuffix(c, a)
  {
  }

  /** One turn of the list loop: read an item, then go on with it appended. */
  lemma ReadListTurn(ts: seq<string>, acc: seq<Value>)
    requires !(ts != [] && ts[0] == ")")
    ensures ReadFromF(ts).0.Err? ==> ReadListF(ts, acc) == ReadFromF(ts)
    ensures ReadFromF(ts).0.Ok? ==> ReadListF(ts, acc) == ReadListF(ReadFromF(ts).1, acc + [ReadFromF(ts).0.value])
  {
  }

  /** `read`/`parse`: the first datum of a text; tokens after it are dropped. */
  function Parse(s: string): Result<Value> {
    ReadFromF(Tokenize(s)).0
  }

  /** The by-reference token array `read_from` shifts from. */
  class TokenQueue {
    var tokens: seq<string>

    constructor (ts: seq<string>)
      ensures tokens == ts
    {
      tokens := ts;
    }

    /** `read_from(&$tokens)`. */
    method ReadFrom() returns (r: Result<Value>)
      modifies this
      ensures (r, tokens) == ReadFromF(old(tokens))
      decreases |tokens|, 0
    {
      if |tokens| == 0 {
        return Err(UnexpectedEof);
      }
      var token := tokens[0];
      tokens := tokens[1..];
      if token == "(" {
        r := ReadList();
      } else if token == ")" {
        return Err(UnexpectedClose);
      } else {
        return Ok(Atom(token));
      }
    }

    /** The `while($tokens[0] != ')')` loop of `read_from`, after the `(` is shifted off. */
    method ReadList() returns (r: Result<Value>)
      modifies this
      ensures (r, tokens) == ReadListF(old(tokens), [])
      decreases |tokens|, 1
    {
      var items: seq<Value> := [];
      ghost var goal := ReadListF(tokens, []);
      while tokens == [] || tokens[0] != ")"
        invariant ReadListF(tokens, items) == goal
        decreases |tokens|
      {
        ReadListTurn(tokens, items);
        var x := ReadFrom();
        if x.Err? {
          return x;
        }
        items := items + [x.value];
      }
      tokens := tokens[1..];
      r := Ok(List(items));
    }
  }

  // ---------------------------------------------------------------- to_string

  /**
   * `(string)` of a float holding an integer: plain digits below fifteen
   * digits; from there PHP switches to exponent notation, which the model
   * does not follow.
   */
  function NumberText(n: int): (r: Result<string>)
    ensures r.Ok? <==> PrintsPlain(n)
    ensures r.Ok? ==> IsIntegerText(r.value) && IntegerValue(r.value) == n
  {
    IntToStringReadsBack(n);
    if PrintsPlain(n) then Ok(IntToString(n)) else Err(Unmodelled)
  }

  /**
   * `to_string`: a list prints as its items' texts joined by spaces inside
   * parentheses, a `Lambda` as its own `(lambda ...)` form, and any other
   * value through PHP's `(string)`: a symbol is its name, true is `1`,
   * false and null are empty, and a PHP closure cannot be converted. Floats
   * that do not hold an integer print through PHP's float formatting, which
   * the model does not follow.
   */
  function ToString(v: Value): Result<string> {
    match v
    case Num(n) => NumberText(n)
    case Int(n) => Ok(IntToString(n))
    case Real(_) => Err(Unmodelled)
    case Bool(b) => Ok(if b then "1" else "")
    case Sym(name) => Ok(name)
    case List(items) => Parenthesized(ToStrings(items))
    case Lambda(form, _) => Parenthesized(ToStrings(form))
    case Prim(_) => Err(HostError)
    case Nil => Ok("")
  }

  /** `'(' . join(' ', $parts) . ')'`, once every item has printed. */
  function Parenthesized(parts: Result<seq<string>>): Result<string> {
    if parts.Err? then Err(parts.fault) else Ok("(" + Join(" ", parts.value) + ")")
  }

  /** `array_map('to_string', $items)`; the first failure stops it. */
  function ToStrings(items: seq<Value>): (r: Result<seq<string>>)
    ensures r.Ok? ==> |r.value| == |items|
  {
    if items == [] then Ok([])
    else
      var h := ToString(items[0]);
      var t := ToStrings(items[1..]);
      if h.Err? then Err(h.fault) else if t.Err? then t else Ok([h.value] + t.value)
  }
}
