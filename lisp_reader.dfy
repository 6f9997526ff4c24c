/**
 * lisp.php's reader: the line-buffered input port (`StringFile`, `InPort`),
 * the tokenizer applied one line at a time, `read` with its quote
 * shorthands, `atom` and `to_string`.
 */
module LispReader {
  import opened PhpText
  import opened LispValues

  // ---------------------------------------------------------------- the tokenizer

  /** PCRE's `\s`. */
  predicate IsSpace(c: char) {
    c == ' ' || c == '\t' || c == '\n' || c == '\r' || c == '\U{000B}' || c == '\U{000C}'
  }

  /** `[^\s('"`,;)]`: a character that may appear in a bare token. */
  predicate IsAtomChar(c: char) {
    !IsSpace(c) && c != '(' && c != '\'' && c != '"' && c != '`' && c != ',' && c != ';' && c != ')'
  }

  /** `[('`,)]`: the one-character tokens. */
  predicate IsPunct(c: char) {
    c == '(' || c == '\'' || c == '`' || c == ',' || c == ')'
  }

  function SpaceRun(s: string): (n: nat)
    ensures n <= |s|
    ensures forall i :: 0 <= i < n ==> IsSpace(s[i])
    ensures n < |s| ==> !IsSpace(s[n])
  {
    if s != [] && IsSpace(s[0]) then 1 + SpaceRun(s[1..]) else 0
  }

  function AtomRun(s: string): (n: nat)
    ensures n <= |s|
    ensures forall i :: 0 <= i < n ==> IsAtomChar(s[i])
    ensures n < |s| ==> !IsAtomChar(s[n])
  {
    if s != [] && IsAtomChar(s[0]) then 1 + AtomRun(s[1..]) else 0
  }

  /**
   * The character class that lisp.php:147 actually writes inside its string
   * alternative: PHP turns `[\\]` into `[\]`, so PCRE reads `[\].|[^"]` as ONE
   * class holding `]`, `.`, `|`, `[`, `^` and `"`.
   */
  predicate InWrittenClass(c: char) {
    c == ']' || c == '.' || c == '|' || c == '[' || c == '^' || c == '"'
  }

  function WrittenClassRun(s: string): (n: nat)
    ensures n <= |s|
  {
    if s != [] && InWrittenClass(s[0]) then 1 + WrittenClassRun(s[1..]) else 0
  }

  /** The largest k < n with s[k] a double quote, or -1. */
  function LastQuoteBelow(s: string, n: nat): (k: int)
    requires n <= |s|
    ensures -1 <= k < n
    ensures k >= 0 ==> s[k] == '"'
  {
    if n == 0 then -1 else if s[n - 1] == '"' then n - 1 else LastQuoteBelow(s, n - 1)
  }

  /**
   * Length of the string token the regex as written matches at the start of
   * s (which begins with a quote), or 0 when it matches none: a quote, the
   * longest run of class characters that is followed by a quote, that quote.
   */
  function WrittenStringLen(s: string): (n: nat)
    requires s != [] && s[0] == '"'
    ensures n <= |s|
  {
    var t := s[1..];
    var k := LastQuoteBelow(t, WrittenClassRun(t));
    if k < 0 then 0 else k + 2
  }

  /**
   * End of the string token `"(?:\\.|[^\\"])*"` matches in s when its opening
   * quote is before index i: backslash pairs are skipped, the first other
   * quote closes; 0 when the line ends first.
   */
  function StringEnd(s: string, i: nat): (n: nat)
    ensures n <= |s|
    ensures n > 0 ==> n > i
    decreases |s| - i
  {
    if i >= |s| then 0
    else if s[i] == '"' then i + 1
    else if s[i] == '\\' then (if i + 1 < |s| then StringEnd(s, i + 2) else 0)
    else StringEnd(s, i + 1)
  }

  /**
   * Length of the first group of the tokenizer at the start of s (which does
   * not start with white space): `,@`, one punctuation character, a string
   * (as written, or as intended), a `;` comment to the end of the line, or
   * the longest run of bare-token characters (possibly empty).
   */
  function TokenLen(s: string, asWritten: bool): (n: nat)
    ensures n <= |s|
  {
    if |s| >= 2 && s[0] == ',' && s[1] == '@' then 2
    else if s != [] && IsPunct(s[0]) then 1
    else if s != [] && s[0] == '"' && asWritten && WrittenStringLen(s) > 0 then WrittenStringLen(s)
    else if s != [] && s[0] == '"' && !asWritten && StringEnd(s, 1) > 0 then StringEnd(s, 1)
    else if s != [] && s[0] == ';' then |s|
    else AtomRun(s)
  }

  /** One match of the tokenizer on a line: skipped white space, group 1, group 2. */
  datatype Lexed = Lexed(skipped: string, token: string, rest: string)

  function Scan(line: string, asWritten: bool): (r: Lexed)
    ensures r.skipped + r.token + r.rest == line
    ensures forall i :: 0 <= i < |r.skipped| ==> IsSpace(r.skipped[i])
    ensures r.token != [] ==> !IsSpace(r.token[0])
  {
    var k := SpaceRun(line);
    var s := line[k..];
    var n := TokenLen(s, asWritten);
    assert line[..k] + s[..n] + s[n..] == line;
    Lexed(line[..k], s[..n], s[n..])
  }

  /** The tokenizer exactly as lisp.php:147 writes it. */
  function LexAsWritten(line: string): Lexed { Scan(line, true) }

  /** The tokenizer with the string alternative its authors evidently meant. */
  function Lex(line: string): Lexed { Scan(line, false) }

  // ---------------------------------------------------------------- the port

  /** A `StringFile`'s lines and read index together with the `InPort`'s line buffer. */
  datatype Port = Port(lines: seq<string>, index: nat, line: string)

  /** A token, the end of input, or the point where `next_token` would loop forever. */
  datatype Lexeme = Tok(text: string) | Eof | Stuck

  function Pending(lines: seq<string>, i: nat): nat
    decreases |lines| - i
  {
    if i >= |lines| then 0 else |lines[i]| + 1 + Pending(lines, i + 1)
  }

  /** How much input is left: a measure every token strictly lowers. */
  function Remaining(p: Port): nat {
    |p.line| + Pending(p.lines, p.index)
  }

  /** `StringFile::readline` stored into the buffer: the next line, or '' past the end. */
  function ReadLine(p: Port): (q: Port)
    ensures q.lines == p.lines
    ensures p.line == "" ==> Remaining(q) <= Remaining(p)
    ensures p.line == "" && q.line != "" ==> Remaining(q) < Remaining(p)
  {
    if p.index < |p.lines| then Port(p.lines, p.index + 1, p.lines[p.index]) else p.(line := "")
  }

  /**
   * `InPort::next_token`: refill an empty buffer from the file; an empty
   * buffer after that is the end of input (so a blank line ends the input);
   * otherwise take one tokenizer match, drop empty tokens and comments, and
   * return the first other token.
   */
  function NextTokenF(p: Port): (r: (Lexeme, Port))
    ensures r.1.lines == p.lines
    ensures Remaining(r.1) <= Remaining(p)
    ensures r.0.Tok? ==> Remaining(r.1) < Remaining(p) && r.0.text != ""
    decreases Remaining(p)
  {
    var p1 := if p.line == "" then ReadLine(p) else p;
    if p1.line == "" then (Eof, p1)
    else
      var lx := Lex(p1.line);
      if lx.token != "" && lx.token[0] != ';' then (Tok(lx.token), p1.(line := lx.rest))
      else if lx.skipped == "" && lx.token == "" then (Stuck, p1)
      else NextTokenF(p1.(line := lx.rest))
  }

  /** One turn of the `next_token` loop, as NextTokenF takes it. */
  lemma NextTokenUnfold(p: Port)
    ensures var p1 := if p.line == "" then ReadLine(p) else p;
            var lx := Lex(p1.line);
            && (p1.line == "" ==> NextTokenF(p) == (Eof, p1))
            && (p1.line != "" && lx.token != "" && lx.token[0] != ';' ==>
                  NextTokenF(p) == (Tok(lx.token), p1.(line := lx.rest)))
            && (p1.line != "" && lx.skipped == "" && lx.token == "" ==> NextTokenF(p) == (Stuck, p1))
            && (p1.line != "" && !(lx.token != "" && lx.token[0] != ';') && !(lx.skipped == "" && lx.token == "") ==>
                  NextTokenF(p) == NextTokenF(p1.(line := lx.rest)))
  {
  }

  // ---------------------------------------------------------------- read

  /** The keys of `Quote::$quotes`. */
  predicate IsQuoteToken(s: string) {
    s == "'" || s == "`" || s == "," || s == ",@"
  }

  function QuoteName(s: string): string
    requires IsQuoteToken(s)
  {
    if s == "'" then "quote" else if s == "`" then "quasiquote"
    else if s == "," then "unquote" else "unquote-splicing"
  }

  /** `S::eof_object($token)`: the end-of-input symbol, or a token spelling its name. */
  predicate IsEofLexeme(t: Lexeme) {
    t.Eof? || t == Tok(EofName)
  }

  /** What `read` returns at the end of input: the eof symbol, or the token text itself. */
  function EofDatum(t: Lexeme): Value
    requires IsEofLexeme(t)
  {
    if t.Eof? then Sym(EofName) else Str(t.text)
  }

  /** `read`: one datum from the port, or the eof value when the input is used up. */
  function ReadF(p: Port): (r: (Result<Value>, Port))
    ensures Remaining(r.1) <= Remaining(p)
    decreases Remaining(p) + 1, 0
  {
    var (t, p1) := NextTokenF(p);
    if IsEofLexeme(t) then (Ok(EofDatum(t)), p1)
    else if t.Stuck? then (Err(Hangs), p1)
    else ReadAheadF(t, p1)
  }

  /** `$read_ahead`: the datum that starts with token t. */
  function ReadAheadF(t: Lexeme, p: Port): (r: (Result<Value>, Port))
    ensures Remaining(r.1) <= Remaining(p)
    ensures r.0.Ok? ==> t.Tok?
    decreases Remaining(p) + (if t.Tok? then 1 else 0), 1
  {
    match t
    case Stuck => (Err(Hangs), p)
    case Eof => (Err(SyntaxError), p)
    case Tok(s) =>
      if s == "(" then ReadListF(p, [])
      else if s == ")" then (Err(SyntaxError), p)
      else if IsQuoteToken(s) then
        var (d, p2) := ReadF(p);
        (if d.Ok? then Ok(List([Sym(QuoteName(s)), d.value])) else d, p2)
      else if s == EofName then (Err(SyntaxError), p)
      else (Ok(Atom(s)), p)
  }

  /** The loop of `$read_ahead` on `(`: read data until `)`, appending to acc. */
  function ReadListF(p: Port, acc: seq<Value>): (r: (Result<Value>, Port))
    ensures Remaining(r.1) <= Remaining(p)
    decreases Remaining(p), 2
  {
    var (t, p1) := NextTokenF(p);
    if t == Tok(")") then (Ok(List(acc)), p1)
    else
      var (x, p2) := ReadAheadF(t, p1);
      if x.Err? then (x, p2) else ReadListF(p2, acc + [x.value])
  }

  /** A port over a whole text, as `new InPort(new StringFile($text))` builds it. */
  function PortOf(text: string): Port {
    Port(Explode('\n', text), 0, "")
  }

  // ---------------------------------------------------------------- atom and to_string

  /** `(float)` of a numeric token: an integer when it is written with digits only. */
  function NumberAtom(token: string): Value
    requires IsNumeric(token)
  {
    if IsIntegerText(token) then Num(IntegerValue(token)) else Real(token)
  }

  /** `atom`: `#t`, `#f`, the lone-quote string test, numbers, and symbols for the rest. */
  function Atom(token: string): Value {
    if token == "#t" then Bool(true)
    else if token == "#f" then Bool(false)
    else if token == "\"" then Str("")
    else if IsNumeric(token) then NumberAtom(token)
    else Sym(token)
  }

  /** PHP `addslashes`: a backslash before `'`, `"` and `\`, and NUL written as `\0`. */
  function AddSlashes(s: string): string {
    if s == [] then ""
    else
      var c := s[0];
      (if c == '\'' || c == '"' || c == '\\' then ['\\', c]
       else if c == '\0' then ['\\', '0'] else [c]) + AddSlashes(s[1..])
  }

  /**
   * `to_string`: booleans as `#t` and `#f`, a symbol as its name, a string
   * quoted with `addslashes`, a list as its items' texts joined by spaces
   * inside parentheses, a PHP closure as `<CLOSURE>`, and anything else
   * through PHP's `(string)`. A procedure prints through its `__toString`,
   * which lists the keys of its frame in insertion order; frames are maps
   * here, so that is `Unmodelled`, as is a float that is not printed as plain
   * digits.
   */
  function ToString(v: Value): Result<string> {
    match v
    case Bool(b) => Ok(if b then "#t" else "#f")
    case Sym(n) => Ok(n)
    case Str(s) => Ok("\"" + AddSlashes(s) + "\"")
    case List(items) => Parenthesized(ToStrings(items))
    case Prim(_) => Ok("<CLOSURE>")
    case Escaper(_) => Ok("<CLOSURE>")
    case Closure(_, _, _) => Err(Unmodelled)
    case Num(n) => if PrintsPlain(n) then Ok(IntToString(n)) else Err(Unmodelled)
    case Real(_) => Err(Unmodelled)
    case Nil => Ok("")
  }

  /** `'(' . join(' ', $parts) . ')'`, once every item has printed. */
  function Parenthesized(parts: Result<seq<string>>): Result<string> {
    if parts.Err? then Err(parts.fault) else Ok("(" + Join(" ", parts.value) + ")")
  }

  /** `array_map('lisp\to_string', $items)`; the first item that cannot print stops it. */
  function ToStrings(items: seq<Value>): (r: Result<seq<string>>)
    ensures r.Ok? ==> |r.value| == |items|
  {
    if items == [] then Ok([])
    else
      var h := ToString(items[0]);
      var t := ToStrings(items[1..]);
      if h.Err? then Err(h.fault) else if t.Err? then t else Ok([h.value] + t.value)
  }

  // ---------------------------------------------------------------- the port objects

  /** `StringFile`: the lines of a text and the index of the next one to hand out. */
  class StringFile {
    var lines: seq<string>
    var index: nat

    constructor (content: string)
      ensures lines == Explode('\n', content) && index == 0
    {
      lines := Explode('\n', content);
      index := 0;
    }

    /** `readline`: the next line, or '' once every line was read. */
    method ReadLine() returns (s: string)
      modifies this
      ensures lines == old(lines)
      ensures old(index) < |lines| ==> s == lines[old(index)] && index == old(index) + 1
      ensures old(index) >= |lines| ==> s == "" && index == old(index)
    {
      if index >= |lines| {
        s := "";
      } else {
        s := lines[index];
        index := index + 1;
      }
    }
  }

  /** `InPort`: a file and the unread rest of its current line. */
  class InPort {
    var file: StringFile
    var line: string

    constructor (f: StringFile)
      ensures file == f && line == ""
    {
      file := f;
      line := "";
    }

    function State(): Port
      reads this, file
    {
      Port(file.lines, file.index, line)
    }

    /** `next_token`, with the corrected tokenizer; Stuck where the source would spin forever. */
    method NextToken() returns (t: Lexeme)
      modifies this, file
      ensures file == old(file)
      ensures (t, State()) == NextTokenF(old(State()))
    {
      while true
        invariant file == old(file)
        invariant NextTokenF(State()) == NextTokenF(old(State()))
        decreases Remaining(State())
      {
        ghost var p := State();
        Refill();
        ghost var p1 := State();
        NextTokenUnfold(p);
        if line == "" {
          return Eof;
        }
        var lx := Lex(line);
        if lx.token != "" && lx.token[0] != ';' {
          line := lx.rest;
          return Tok(lx.token);
        }
        if lx.skipped == "" && lx.token == "" {
          // The buffer would stay the same on every further turn of the loop.
          return Stuck;
        }
        line := lx.rest;
        assert State() == p1.(line := lx.rest);
      }
    }

    /** The refill at the head of `next_token`'s loop: an empty buffer takes the next line of the file. */
    method Refill()
      modifies this, file
      ensures file == old(file)
      ensures State() == if old(line) == "" then ReadLine(old(State())) else old(State())
    {
      if line == "" {
        line := file.ReadLine();
      }
    }
  }

  /** `read` on an input port. */
  method Read(inp: InPort) returns (r: Result<Value>)
    modifies inp, inp.file
    ensures inp.file == old(inp.file)
    ensures (r, inp.State()) == ReadF(old(inp.State()))
    decreases Remaining(inp.State()) + 1, 0
  {
    var t := inp.NextToken();
    if IsEofLexeme(t) {
      r := Ok(EofDatum(t));
    } else if t.Stuck? {
      r := Err(Hangs);
    } else {
      r := ReadAhead(inp, t);
    }
  }

  /** `$read_ahead`, with its list loop. */
  method ReadAhead(inp: InPort, t: Lexeme) returns (r: Result<Value>)
    modifies inp, inp.file
    ensures inp.file == old(inp.file)
    ensures (r, inp.State()) == ReadAheadF(t, old(inp.State()))
    decreases Remaining(inp.State()) + (if t.Tok? then 1 else 0), 1
  {
    match t {
      case Stuck =>
        r := Err(Hangs);
      case Eof =>
        r := Err(SyntaxError);
      case Tok(s) =>
        if s == "(" {
          var items: seq<Value> := [];
          ghost var start := inp.State();
          while true
            invariant inp.file == old(inp.file)
            invariant ReadListF(inp.State(), items) == ReadListF(start, [])
            invariant Remaining(inp.State()) <= Remaining(start)
            decreases Remaining(inp.State())
          {
            var t1 := inp.NextToken();
            if t1 == Tok(")") {
              return Ok(List(items));
            }
            var x := ReadAhead(inp, t1);
            if x.Err? {
              return x;
            }
            items := items + [x.value];
          }
        } else if s == ")" {
          r := Err(SyntaxError);
        } else if IsQuoteToken(s) {
          var d := Read(inp);
          r := if d.Ok? then Ok(List([Sym(QuoteName(s)), d.value])) else d;
        } else if s == EofName {
          r := Err(SyntaxError);
        } else {
          r := Ok(Atom(s));
        }
    }
  }
}
