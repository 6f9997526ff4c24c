/**
 * The values of lisp.php's interpreter. A PHP value is modelled as one
 * tagged variant: numbers, booleans (the constant `None` is PHP `false`),
 * strings, symbols (compared by name, since the source's symbol table is
 * rebuilt on every call), flat lists, user procedures, the primitive PHP
 * closures, the escape closures made by `callcc`, and PHP `null`, which
 * missing array indexes produce.
 */
module LispValues {

  /** The primitives modelled from the global table. */
  datatype PrimOp =
    | Add | Sub | Mul | Lt | Gt | Le | Ge | NumEq | Not
    | Length | Car | Cdr | ConsOp | Append | ListOp | IsNull | CallCC

  datatype Value =
    | Num(n: int)                               // a PHP float holding an integer
    | Real(text: string)                        // any other numeric literal, kept as its text
    | Bool(b: bool)
    | Str(s: string)
    | Sym(name: string)
    | List(items: seq<Value>)
    | Closure(parms: Value, body: Value, env: nat)  // Procedure: env is a frame index
    | Prim(op: PrimOp)
    | Escaper(ball: nat)                        // the `$throw` closure of one `callcc` call
    | Nil                                       // PHP null

  /** The exception kinds of the source, plus the two ways the model can stop early. */
  datatype Fault =
    | SyntaxError
    | TypeError
    | LookupError
    | HostError     // an error or warning raised by PHP itself (a non-callable value, a bad operand)
    | Hangs         // the source loops forever at this point
    | OutOfFuel     // the model's step bound ran out
    | Unmodelled    // PHP type juggling the model does not follow (floats, loose comparison)

  /** What evaluating or expanding produces: a value, a thrown `callcc` ball, or an exception. */
  datatype Outcome =
    | Normal(v: Value)
    | Escape(ball: nat, v: Value)
    | Fail(fault: Fault)

  datatype Result<+T> = Ok(value: T) | Err(fault: Fault)

  /** lisp.php's `None`. */
  const NoneValue: Value := Bool(false)

  const EofName := "#<eof-object>"

  predicate IsSym(v: Value, name: string) {
    v.Sym? && v.name == name
  }

  /** `is_pair`: a non-empty array. */
  predicate IsPair(v: Value) {
    v.List? && v.items != []
  }

  /** `cons`: a new list whose head is x, followed by the items of y. */
  function Cons(x: Value, y: seq<Value>): (r: Value)
    ensures IsPair(r) && r.items[0] == x && r.items[1..] == y
  {
    List([x] + y)
  }

  /** `$a[i]` on an array: the item, or null when the index is missing. */
  function At(items: seq<Value>, i: nat): Value {
    if i < |items| then items[i] else Nil
  }

  /**
   * `$v[i]` on any value: the item of a list (null when missing), a
   * one-character string (empty when missing), null for scalars; PHP
   * refuses to index an object.
   */
  function IndexValue(v: Value, i: nat): (r: Outcome)
    ensures v.List? ==> r == Normal(At(v.items, i))
    ensures r.Fail? <==> (v.Sym? || v.Closure? || v.Prim? || v.Escaper?)
    ensures !r.Escape?
  {
    match v
    case List(items) => Normal(At(items, i))
    case Str(s) => Normal(if i < |s| then Str([s[i]]) else Str(""))
    case Num(_) => Normal(Nil)
    case Real(_) => Normal(Nil)
    case Bool(_) => Normal(Nil)
    case Nil => Normal(Nil)
    case _ => Fail(HostError)
  }

  /** PHP's conversion to boolean, as `if` and `not` use it. */
  predicate Truthy(v: Value) {
    match v
    case Num(n) => n != 0
    case Real(t) => !RealIsZero(t)
    case Bool(b) => b
    case Str(s) => s != "" && s != "0"
    case List(items) => items != []
    case Nil => false
    case _ => true
  }

  /** A float literal is zero when no digit before its exponent is non-zero. */
  predicate RealIsZero(t: string) {
    forall i :: 0 <= i < |t| && (forall j :: 0 <= j < i ==> t[j] != 'e' && t[j] != 'E') ==>
      !('1' <= t[i] <= '9')
  }

  /** `is_callable` on the values the model has. */
  predicate Callable(v: Value) {
    v.Closure? || v.Prim? || v.Escaper?
  }

  /** A size for termination arguments over nested lists. */
  function Size(v: Value): (n: nat)
    ensures n >= 1
  {
    match v
    case List(items) => 1 + SizeAll(items)
    case Closure(p, b, _) => 1 + Size(p) + Size(b)
    case _ => 1
  }

  function SizeAll(items: seq<Value>): nat {
    if items == [] then 0 else Size(items[0]) + SizeAll(items[1..])
  }

  lemma SizeTail(items: seq<Value>)
    requires items != []
    ensures Size(List(items[1..])) < Size(List(items))
    ensures Size(items[0]) < Size(List(items))
  {
  }
}
