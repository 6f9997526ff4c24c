/**
 * The values of the earlier interpreter, `lis.php`: PHP floats holding
 * integers, PHP ints (which only `len` and arithmetic on its results make),
 * other numeric literals kept as text, the booleans and `null`
 * its primitives return, `Symbol` objects, PHP arrays as lists, `Lambda`
 * objects and the PHP closures of the global table.
 */
module LisValues {

  /** The primitives `add_globals` installs. */
  datatype PrimOp =
    | Add | Sub | Mul | Div | Gt | Lt | Ge | Le | NumEq | IsEqual | IsEq | Len
    | Not | Car | Cdr | Cons | Append | ListOp | IsList | IsNull | IsSymbol

  datatype Value =
    | Num(n: int)                     // a PHP float holding an integer
    | Int(n: int)                     // a PHP int
    | Real(text: string)              // any other numeric literal, kept as its text
    | Bool(b: bool)
    | Sym(name: string)               // a `Symbol` object
    | List(items: seq<Value>)         // a PHP array
    | Lambda(form: seq<Value>, env: nat)  // the `(lambda vars exp)` form and the frame it closed over
    | Prim(op: PrimOp)                // a PHP closure of the global table
    | Nil                             // PHP null

  /**
   * What stops an evaluation: the two `syntaxError` messages of the reader,
   * an error the PHP engine raises (a call of something that is not
   * callable, too few arguments, a bad array access), behaviour of PHP type
   * juggling the model does not follow, and running out of fuel.
   */
  datatype Fault = UnexpectedEof | UnexpectedClose | HostError | Unmodelled | OutOfFuel

  datatype Result<+T> = Ok(value: T) | Err(fault: Fault)

  /** A PHP number the model follows: a float holding an integer, or an int. */
  predicate IsNumber(v: Value) {
    v.Num? || v.Int?
  }

  /** PHP's 64-bit int range; an int result outside it becomes a float. */
  const IntMin: int := -0x8000_0000_0000_0000
  const IntMax: int := 0x7FFF_FFFF_FFFF_FFFF

  /** The result of int arithmetic: an int when it fits, a float otherwise. */
  function IntResult(m: int): (r: Value)
    ensures IsNumber(r) && r.n == m
    ensures r.Int? <==> IntMin <= m <= IntMax
    ensures r.Num? <==> !(IntMin <= m <= IntMax)
  {
    if IntMin <= m <= IntMax then Int(m) else Num(m)
  }

  /** `list(...) = $x` on a missing index gives null. */
  function ItemAt(items: seq<Value>, i: nat): (r: Value)
    ensures i < |items| ==> r == items[i]
    ensures i >= |items| ==> r == Nil
  {
    if i < |items| then items[i] else Nil
  }

  /**
   * PHP's truth value of a value, as `if` and `not` see it: false, 0, an
   * empty array and null are false; objects and closures are true. The
   * truth of a float written with a fraction or exponent is not modelled.
   */
  function Truth(v: Value): (r: Result<bool>)
    ensures r.Err? <==> v.Real?
    ensures v.Bool? ==> r == Ok(v.b)
    ensures v.List? ==> r == Ok(v.items != [])
  {
    match v
    case Num(n) => Ok(n != 0)
    case Int(n) => Ok(n != 0)
    case Real(_) => Err(Unmodelled)
    case Bool(b) => Ok(b)
    case List(items) => Ok(items != [])
    case Nil => Ok(false)
    case _ => Ok(true)
  }

  /**
   * `$x[i]`: an array gives its item or null, a scalar or null gives null,
   * and an object (a symbol or a closure) cannot be indexed.
   */
  function IndexValue(v: Value, i: nat): (r: Result<Value>)
    ensures v.List? ==> r == Ok(ItemAt(v.items, i))
    ensures r.Err? <==> (v.Sym? || v.Lambda? || v.Prim?)
  {
    match v
    case List(items) => Ok(ItemAt(items, i))
    case Sym(_) => Err(HostError)
    case Lambda(_, _) => Err(HostError)
    case Prim(_) => Err(HostError)
    case _ => Ok(Nil)
  }
}
