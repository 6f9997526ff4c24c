# scphpeme in Dafny

This project models the two Scheme interpreters of the scphpeme repository, both written in PHP.

- `lisp.php` is the full interpreter. It has:
  - a line-buffered input port (`StringFile`, `InPort`) with a regex tokenizer applied one line at a time;
  - `read`, with the quote shorthands `'`, `` ` ``, `,` and `,@`;
  - `atom` and `to_string`;
  - chained `Env` frames whose `setAt` may write into the outer frame;
  - an `expand` pass that checks and rewrites special forms, runs `define-macro` at top level and applies the built-in `let` macro and the `and` macro that the file defines for itself when it loads;
  - `expand_quasiquote`;
  - an `_eval` loop that continues a user procedure's body in place;
  - escape-only continuations through `callcc`.
- `lis.php` is the earlier, simpler interpreter. It has:
  - `tokenize`, which pads parentheses and splits on spaces;
  - `read_from`, which shifts tokens off a shared array;
  - `atom` and `to_string`;
  - an `Env` whose lookup never fails;
  - a plain recursive `_eval`.

Each interpreter is modelled twice:

- **As functions.** Evaluation, expansion and reading are functions of an explicit state. That state is an arena of frames, addressed by index so that closures can share frames. For `lisp.php` it also holds a counter of `callcc` balls and the macro table. Because PHP recursion is unbounded, these functions take a `fuel` bound.
- **As imperative code.** The parts of the source that work by updating objects are written as classes and methods: `Store` (the `Env` objects), `StringFile`, `InPort`, `TokenQueue` (the token array of `read_from`), the `while` loop of `_eval`, and the `foreach` and `array_map` loops. Each method is proved equal to the function of the same name.

Quirks of the source are modelled as written, and lemmas state them. Where the model departs from the source, "## Left out" says so. The largest departure is the string pattern of `lisp.php`'s tokenizer, listed under Findings: the reader uses the corrected pattern, and the pattern as written is modelled beside it.

- `lisp.php`'s `setAt` writes into the immediate outer frame when that frame already binds the name.
- `lisp.php`'s parameter binding can therefore overwrite a variable of the defining frame.
- `lis.php`'s `cdr` answers the second item rather than the rest of the list.
- `lis.php`'s `find` falls back to the root frame when no frame binds the name.
- In both interpreters a name bound to null reads as unbound, because `find` and `at` test it with `isset`: `lisp.php` raises LookupError for it, and `lis.php` reads an outer binding or false.
- `lis.php`'s `tokenize` keeps newlines inside tokens.
- `lisp.php`'s `expand_quasiquote` returns an unquoted expression without expanding it, so a macro call or a malformed form under `,` reaches `_eval` as it was written.
- `lisp.php`'s `atom` makes a string only of a lone `"`, so a printed string such as `"hi"` reads back as a symbol.

Where the code and the repository's own description disagree, the model follows the code:

- The description lists one primitive table, with `length`, for both interpreters. `lis.php` binds `len` instead, and its `cdr` answers the second item.
- The description says `car` and `cdr` of an empty list fail. In the code, a missing array index gives null (PHP only warns). So `car` of an empty list answers null in both interpreters, `lis.php`'s `cdr` of a list with fewer than two items answers null, and `lisp.php`'s `cdr` of an empty list answers the empty list.

Modules:

| module | file | what it holds |
|---|---|---|
| `Basics` | basics.dfy | `Option` |
| `PhpText` | php_text.dfy | the PHP string functions used: `is_numeric`, `(float)` and `(string)` on integers, `explode`, `join`, `trim`, blank collapsing |
| `LispValues`, `LispEnv`, `LispEnvProps` | lisp_values.dfy, lisp_env.dfy, lisp_env_props.dfy | `lisp.php`'s values and `Env` |
| `LispReader`, `LispReaderProps` | lisp_reader.dfy, lisp_reader_props.dfy | `lisp.php`'s port, tokenizer, `read`, `atom` and `to_string` |
| `LispRoundTrip` | lisp_roundtrip.dfy | `read` of the text `to_string` prints |
| `LispEval`, `LispMachine`, `LispEvalProps`, `LispEvalExamples` | lisp_eval.dfy, lisp_machine.dfy, lisp_eval_props.dfy, lisp_eval_examples.dfy | `lisp.php`'s `_eval`, `callcc` and primitives |
| `LispSumSquares` | lisp_sum_squares.dfy | the tail-recursion test of tests-lisp.php:75-79, followed through `_eval` for ranges of any length |
| `LispExpand`, `LispExpandProps`, `LispQuasi`, `LispQuasiProps` | lisp_expand.dfy, lisp_expand_props.dfy, lisp_quasi.dfy, lisp_quasi_props.dfy | `expand`, `let`, `macro_table` and `expand_quasiquote` |
| `LispCore` | lisp_core.dfy | the core forms `expand` leaves for `_eval` |
| `LispAnd` | lisp_and.dfy | the `and` macro `lisp.php` defines for itself when it loads, and its expansions |
| `LisValues`, `LisEnv`, `LisEnvProps` | lis_values.dfy, lis_env.dfy, lis_env_props.dfy | `lis.php`'s values and `Env` |
| `LisReader`, `LisReaderProps` | lis_reader.dfy, lis_reader_props.dfy | `lis.php`'s `tokenize`, `read_from`, `atom` and `to_string` |
| `LisEval`, `LisMachine`, `LisEvalProps`, `LisEvalExamples` | lis_eval.dfy, lis_machine.dfy, lis_eval_props.dfy, lis_eval_examples.dfy | `lis.php`'s `_eval` and primitives |

Outcomes are modelled as follows:

- An exception of the source is a `Fault`: `SyntaxError`, `TypeError`, `LookupError`, the reader's two `syntaxError` messages in `lis.php`, or `HostError`. `HostError` covers errors PHP itself raises, such as calling a value that is not callable, passing too few arguments, or indexing an object.
- `Unmodelled` marks PHP type juggling the model does not follow.
- `OutOfFuel` marks an exhausted step bound.
- `Hangs` marks a line on which the tokenizer matches an empty token and so would loop forever. With the corrected string pattern this still happens at a quote that no later quote on the line closes.

## Model

| member | source | states |
|---|---|---|
| PhpText.CollapseBlanks | lis.php:158 | every run of spaces and tabs becomes one space: the result has no tab and no two spaces in a row, starts like the input, and is empty only when the input is |
| PhpText.Trim | lis.php:158 | the result neither starts nor ends with a character `trim` strips |
| PhpText.Explode | lis.php:158 | `explode` gives at least one piece, and no piece holds the separator |
| PhpText.JoinExplode | lis.php:158 | joining the pieces of `explode` with the same separator gives the text back |
| PhpText.IntToStringReadsBack | lis.php:179 | the text PHP prints for an integer is numeric, is integer text, and `(float)` reads the same integer back from it |
| PhpText.IsNumeric | lis.php:179 | PHP 8 `is_numeric` on a string: an optionally signed decimal with an optional exponent, white space allowed around it (its properties are stated by `LisReaderProps.ParensAreNotNumeric`, `LisReaderProps.AtomOfNumber` and `PhpText.IntToStringReadsBack`) |
| LisValues.IntResult | lis.php:74-76 | int arithmetic gives an int exactly when the result lies in PHP's 64-bit range, and a float holding the same number otherwise |
| LisValues.ItemAt | lis.php:121 | `list(...) = $x` gives the item at an index inside the array, and null past its end |
| LisValues.Truth | lis.php:122 | a boolean is its own truth, an array is true exactly when non-empty, and the truth fails only for a float written with a fraction |
| LisValues.IndexValue | lis.php:88-89 | `$x[i]` on an array gives its item or null; it fails exactly on an object (a symbol, a `Lambda` or a closure) |
| LisEnv.Find | lis.php:52-54 | `find` answers a frame at or outside the start of the walk, and a frame of the arena |
| LisEnv.Lookup | lis.php:52-64 | a variable reference never reads null: a name bound in the frame itself reads as that value, and an unbound name reads as false (where it reads from is stated by `LisEnvProps.LookupInChain`) |
| LisEnv.SetAtF | lis.php:66-68 | `setAt` binds the name in that frame alone and keeps its outer link; every other frame is unchanged |
| LisEnv.UpdateF | lis.php:47-50 | `update` is a left-biased union: the names are the union, an existing binding keeps its value, a new name gets the given value, and no other frame changes |
| LisEnv.Store.constructor | lis.php:98 | the frames start as the global frame that `add_globals` fills |
| LisEnv.Store.SetAt | lis.php:66-68 | the frames after the call are `SetAtF` of the frames before it |
| LisEnv.Store.Update | lis.php:47-50 | the frames after the call are `UpdateF` of the frames before it |
| LisEnv.Store.NewEnv | lis.php:42-45 | `new Env($values, $outer)` appends exactly one frame, with those values and that outer frame, and answers its index |
| LisEnvProps.Chain | lis.php:53 | the frames `find` visits start at the frame it is asked from and lie inside the arena |
| LisEnvProps.FirstHolder | lis.php:53 | the first frame of a walk that binds the name; none exactly when no frame of the walk binds it |
| LisEnvProps.FindFirstInChain | lis.php:52-54 | `find` answers the innermost frame of the chain that binds the name, and the last frame of the chain when none does |
| LisEnvProps.FindUnboundStopsAtRoot | lis.php:53 | for an unbound name, `find` stops at a frame without an outer frame instead of failing |
| LisEnvProps.LookupInChain | lis.php:52-64 | a variable reference answers the innermost binding of the name, and false when no frame binds it |
| LisEnvProps.SetAtKeepsChains | lis.php:66-68 | `setAt` changes no `outer` link, so every chain stays as it was |
| LisEnvProps.LookupAfterSetAtFound | lis.php:125 | writing a non-null value into the frame `find` answered makes the name read as that value |
| LisEnvProps.SetAtKeepsOtherNames | lis.php:66-68 | `setAt` of one name leaves the lookup of every other name, from every frame, unchanged |
| LisEnvProps.GlobalFrame | lis.php:71-98 | the global environment is one frame without an outer frame that binds the primitives, `+` and `car` among them |
| LisEval.Arith | lis.php:74-76 | `+`, `-` and `*` succeed exactly on two numbers, give the sum, difference or product, and give an int exactly when both operands are ints and the result fits PHP's int range |
| LisEval.Divide | lis.php:77 | `/` succeeds exactly on two numbers whose divisor is non-zero and divides the dividend; the quotient times the divisor is the dividend, it is an int exactly when both operands are ints and the quotient lies in PHP's int range, and a zero divisor is a PHP error |
| LisEval.Compare | lis.php:79-85 | the comparisons and `=`, `equal?`, `eq?` succeed exactly on two numbers; each answers its order relation on the values, `=` and `equal?` compare values, and `eq?` is true exactly when the values and the PHP types (int or float) agree |
| LisEval.ApplyPrim | lis.php:74-94 | calling any primitive's closure with fewer arguments than it declares is a PHP error |
| LisEval.NameOf | lis.php:124-128 | the variable of `set!`/`define` converts to a name exactly when it is a symbol or missing, and a symbol converts to its own name |
| LisEval.Names | lis.php:131 | a parameter list converts to one name per parameter, each parameter being the symbol of its name |
| LisEval.Bind | lis.php:131 | `array_combine($vars, $args)` succeeds only for a parameter list as long as the arguments; a shorter or longer list, or parameters that are not a list, raise a PHP error |
| LisEval.Eval | lis.php:108-139 | evaluating an expression never removes a frame |
| LisEval.EvalForm | lis.php:117-138 | evaluating a form never removes a frame |
| LisEval.EvalSeq | lis.php:132-134 | the `begin` loop never removes a frame |
| LisEval.EvalArgs | lis.php:136 | a successful `array_map` gives one value per item, after the values already collected |
| LisEval.Apply | lis.php:137 | a call never removes a frame |
| LisMachine.EvalM | lis.php:108-139 | running `_eval` on the `Env` objects leaves the frames and gives the result that `LisEval.Eval` computes from the old frames |
| LisMachine.EvalSeqM | lis.php:132-134 | the `foreach` of `begin` leaves the frames and gives the value that `LisEval.EvalSeq` computes |
| LisMachine.EvalArgsM | lis.php:136 | the `array_map` loop leaves the frames and gives the values that `LisEval.EvalArgs` computes |
| LisMachine.ApplyM | lis.php:131 | `call_user_func_array` on a `Lambda` or primitive leaves the frames and gives the result that `LisEval.Apply` computes |
| LisEvalProps.EvalQuoteUnevaluated | lis.php:117-119 | `quote` answers its operand unevaluated and changes nothing |
| LisEvalProps.EvalIfChoosesBranch | lis.php:120-122 | `if` evaluates its test and then only the selected branch; replacing the branch not taken changes neither result nor frames |
| LisEvalProps.EvalIfWithoutAlternative | lis.php:121-122 | a three-item `if` whose test is false answers null |
| LisEvalProps.EvalSeqLast | lis.php:132-134 | `begin` answers the value of its last form, evaluated in the frames the earlier forms left, unless an earlier form failed |
| LisEvalProps.EvalEmptyBegin | lis.php:132-134 | `(begin)` answers null and changes nothing |
| LisEvalProps.EvalSetWritesFound | lis.php:123-125 | `set!` writes the value into the frame `find` answered before the expression ran, and answers null |
| LisEvalProps.EvalSetUnboundWritesRoot | lis.php:123-125 | `set!` of a name no frame binds raises nothing and binds the name in the root of the chain |
| LisEvalProps.EvalSetThenLookup | lis.php:123-125 | after `(set! name e)`, when e leaves the frames as they were and its value is not null, the name reads as e's value from the same frame |
| LisEvalProps.EvalDefineBinds | lis.php:126-128 | `define` binds the name in the current frame, whatever an outer frame holds, and leaves every other name's lookup unchanged |
| LisEvalProps.EvalLambdaCloses | lis.php:129-131 | a `lambda` form evaluates to a `Lambda` over the form and the current frame, and changes nothing |
| LisEvalProps.EvalApplication | lis.php:135-138 | any other list evaluates all its items left to right and calls the first value with the rest |
| LisEvalProps.ApplyLambdaBinds | lis.php:131 | calling a `Lambda` evaluates its body in one new frame, binding the parameters to the arguments, over the frame the `lambda` was evaluated in |
| LisEvalProps.NamesOfSymbols | lis.php:131 | a list of symbols converts to their names, in order |
| LisEvalProps.ApplyArityMismatch | lis.php:131 | a `Lambda` called with a different number of arguments than parameters raises a PHP error and adds no frame |
| LisEvalProps.CombineBindsLast | lis.php:131 | `array_combine` binds each parameter to its argument, and a repeated parameter to its last argument |
| LisEvalProps.CarCdrOfCons | lis.php:87-89 | `cons` prepends; `car` of the result gives the head back; `cdr` gives the item after it (null if none), not the rest |
| LisEvalProps.CdrIsSecondItem | lis.php:89 | `(cdr (list 1 2 3))` answers 2 and not `(2 3)` |
| LisEvalProps.NullIff | lis.php:93 | `null?` holds exactly of the empty list, false and null |
| LisEvalProps.PrimTooFewArguments | lis.php:74-94 | any primitive called with too few arguments raises a PHP error |
| LisEvalProps.AppendLength | lis.php:86-90 | `append` concatenates two lists, and `len` of the result is the int sum of their lengths |
| LisEvalProps.LenIsNotIdenticalToLiteral | lis.php:83-86 | `len` answers a PHP int, which is `=` to the float of the same number but not `eq?` to it |
| LisEvalProps.DivideLeavesIntRange | lis.php:77 | `PHP_INT_MIN / -1` gives the float 2^63, while `PHP_INT_MAX / -1` stays an int |
| LisEvalExamples.EvalArgsAtoms | lis.php:136 | items that are symbols or constants evaluate to their values without touching the frames |
| LisEvalExamples.EvalPrimCall | lis.php:135-138 | a primitive called on symbols and constants answers the primitive applied to their values and changes nothing |
| LisEvalExamples.IncrementX | lis.php:135-138 | `(+ x 1)` with `x` bound to n answers n + 1 |
| LisEvalExamples.DefineX | lis.php:126-128 | `(define x 1)` in a lone frame binds `x` to 1 there and answers null |
| LisEvalExamples.SetX | lis.php:123-125 | `(set! x (+ x 1))` with `x` bound to 1 rebinds it to 2 in the frame that holds it |
| LisEvalExamples.DefineSetBody | lis.php:132-134 | the body `(define x 1) (set! x (+ x 1)) (+ x 1)` evaluated in order answers 3 and leaves `x` bound to 2 |
| LisEvalExamples.EvalBegin | lis.php:132-134 | `begin` evaluates its body in order, starting from null |
| LisEvalExamples.EvalSeqStep | lis.php:133 | after a body expression answers a value, `begin` goes on with the rest of the body |
| LisEvalExamples.BeginDefineSet | lis.php:123-134 | `(begin (define x 1) (set! x (+ x 1)) (+ x 1))` in a root frame answers 3 and leaves `x` bound to 2 |
| LisEvalExamples.BeginDefineSetExample | lis.php:123-134 | the same program from the global environment answers 3 and leaves `x` bound to 2 in the global frame |
| LisEvalExamples.LambdaDouble | lis.php:129-138 | `((lambda (x) (+ x x)) 5)` answers 10 and adds one frame binding `x` to 5 over the root |
| LisEvalExamples.DoubleArgs | lis.php:136-137 | the operator `(lambda (x) body)` evaluates to a closure over the root and the operand 5 to itself, leaving the frames as they were |
| LisEvalExamples.DoubleCall | lis.php:136-138 | calling that closure on 5 evaluates its body in a new frame binding `x` to 5 whose outer frame is the root |
| LisEvalExamples.DoubleBody | lis.php:136-138 | `(+ x x)` with `x` bound to 5 over a root that binds `+` to addition answers 10 and changes no frame |
| LisEvalExamples.LambdaDoubleExample | lis.php:129-138 | from the global environment, `((lambda (x) (+ x x)) 5)` answers 10 |
| LisReader.Tokenize | lis.php:156-159 | `tokenize` pads, collapses, trims and splits on spaces (its tokens are stated by `LisReaderProps.TokenizeNoEmptyToken`, `LisReaderProps.TokenizeNoBlank`, `LisReaderProps.TokenizeParens` and `LisReaderProps.TokenizeKeepsNewline`) |
| LisReader.PadParens | lis.php:158 | padding never shortens the text (its spacing is stated by `LisReaderProps.PadParensSpaced`) |
| LisReader.Atom | lis.php:177-180 | a token becomes a symbol exactly when it is not numeric, and that symbol has the token's text |
| LisReader.ReadFromF | lis.php:161-175 | `read_from` only shifts tokens off the front; an empty array gives 'unexpected EOF' and stays empty; otherwise at least one token is shifted |
| LisReader.Parse | lis.php:147-154 | `parse` reads the first datum of the text's tokens (stated by `LisReaderProps.ReadFromTokensOf` and `LisReaderProps.ParseBlank`) |
| LisReader.ReadListF | lis.php:167-168 | the list loop only shifts tokens off the front |
| LisReader.TokenQueue.constructor | lis.php:149 | the token array holds the tokens given |
| LisReader.TokenQueue.ReadFrom | lis.php:161-175 | the datum read and the tokens left in the array are those `ReadFromF` gives for the old array |
| LisReader.TokenQueue.ReadList | lis.php:165-168 | the list loop reads items until a `)` and shifts it off; the list and the tokens left are those `ReadListF` gives for the old array |
| LisReader.ReadListTurn | lis.php:166 | one turn of the list loop: a failed item read ends the list with that failure, and a read item is appended before the loop goes on |
| LisReader.ToString | lis.php:182-185 | `to_string` joins the items' texts inside parentheses and casts an atom to string (stated by `LisReaderProps.ToStringNested`, `LisReaderProps.ToStringsAll`, `LisReaderProps.SymbolPrintsBack`, `LisReaderProps.AtomOfPrintedInteger` and `LisReaderProps.ToStringOfClosureFails`) |
| LisReader.ToStrings | lis.php:184 | printing the items gives one text per item |
| LisReaderProps.PadParensSpaced | lis.php:158 | after padding, every parenthesis has a space on both sides |
| LisReaderProps.CollapseKeepsSpaced | lis.php:158 | collapsing blanks keeps every parenthesis between spaces |
| LisReaderProps.NormalizedShape | lis.php:158 | the text `tokenize` splits has spaced parentheses, single spaces, no tab and no space at either end |
| LisReaderProps.ExplodeNoEmptyTail | lis.php:158 | splitting single-spaced text without a trailing space gives no empty piece after the first |
| LisReaderProps.ExplodeParens | lis.php:158 | splitting spaced text gives each parenthesis as a piece of its own |
| LisReaderProps.NormalizedNoEmptyPiece | lis.php:157 | splitting normalized text gives one empty piece when the text is empty, and no empty piece otherwise |
| LisReaderProps.TrimEmpty | lis.php:157 | `trim` leaves nothing exactly when every character is one it strips |
| LisReaderProps.TrimLeftEmpty | lis.php:157 | stripping from the front leaves nothing exactly when every character is one `trim` strips |
| LisReaderProps.TrimRightEmpty | lis.php:157 | stripping from the end leaves nothing exactly when every character is one `trim` strips |
| LisReaderProps.CollapseAllTrimmed | lis.php:157 | collapsing blanks keeps a text made only of stripped characters so, and any other text not |
| LisReaderProps.PadAllTrimmed | lis.php:157 | padding parentheses keeps a text made only of stripped characters so, and any other text not |
| LisReaderProps.CollapseFixed | lis.php:158 | text with single spaces and no tab is left as it is by the blank collapsing |
| LisReaderProps.TokenizeNoEmptyToken | lis.php:155-158 | a text made only of characters `trim` strips gives exactly one empty token, and any other text gives no empty token |
| LisReaderProps.TokenizeNoBlank | lis.php:156-159 | no token holds a space or a tab |
| LisReaderProps.TokenizeParens | lis.php:156-159 | each parenthesis is a token of its own |
| LisReaderProps.TokenizeKeepsNewline | lis.php:158 | a newline is not collapsed: `(a\nb)` gives the tokens `(`, `a\nb`, `)` |
| LisReaderProps.ReadFromEmpty | lis.php:163 | an empty token array raises 'unexpected EOF while reading' |
| LisReaderProps.ReadFromClose | lis.php:170-171 | a leading `)` raises 'unexpected )' after it has been shifted off |
| LisReaderProps.ReadListUnclosed | lis.php:163-167 | a list that is never closed consumes every token and raises 'unexpected EOF while reading' |
| LisReaderProps.TokensOfStart | lis.php:164-169 | the tokens of a readable datum are never empty and never start with `)` |
| LisReaderProps.ReadListItem | lis.php:167-168 | a turn of the list loop reads one readable item off the front of the tokens and appends it |
| LisReaderProps.ReadListFirst | lis.php:165-169 | the list loop reads a non-empty item list once it reads the rest of that list |
| LisReaderProps.ReadFromTokensOf | lis.php:161-175 | `read_from` shifts off exactly the tokens of one datum, whatever follows them, and gives that datum back |
| LisReaderProps.ParseBlank | lis.php:147-159 | `parse` of a blank text gives a symbol with an empty name, because `explode` leaves one empty token |
| LisReaderProps.ReadListTokensOf | lis.php:165-169 | the list loop reads items up to the matching `)`, pops that `)`, and leaves the rest |
| LisReaderProps.AtomOfNumber | lis.php:179 | a numeric token becomes a number; integer text becomes the integer it spells |
| LisReader.NumberText | lis.php:184 | `(string)` of an integer-valued float succeeds exactly below fifteen digits, and its text is integer text spelling the same number |
| LisReaderProps.AtomOfPrintedInteger | lis.php:179-184 | an integer prints exactly when it is below fifteen digits, and its printed text reads back as the same number |
| LisReaderProps.SymbolPrintsBack | lis.php:177-185 | a token that is not numeric becomes a symbol that prints as the token |
| LisReaderProps.ToStringNested | lis.php:184 | `(testing 1 (2))` prints with single spaces between items and nested lists in parentheses |
| LisReaderProps.ToStringsAll | lis.php:184 | when every item prints, `array_map('to_string', ...)` gives the items' texts in order |
| LisReaderProps.ToStringOfClosureFails | lis.php:184 | a list holding a PHP closure cannot be printed |
| LisReaderProps.ToStringsFailsAt | lis.php:184 | printing the items fails at the first closure |
| LispValues.Cons | lisp.php:361-363 | `cons` builds a pair whose head is x and whose rest is y's items |
| LispValues.IndexValue | lisp.php:398 | `$x[i]` on an array gives its item or null; it fails exactly on an object |
| LispValues.Truthy | lisp.php:449 | PHP's conversion to boolean, as `if` and `not` use it: zero, `false`, `""`, `"0"`, the empty array and null are false, everything else is true (its use is stated by `LispEvalProps.EvalIfChoosesBranch` and `LispEvalProps.EvalIfWithoutAlternative`) |
| LispEnv.Find | lisp.php:328-336 | `find` answers a frame that binds the name, or raises LookupError |
| LispEnv.Lookup | lisp.php:328-346 | a variable reference succeeds exactly when `find` does, never reads null, and otherwise raises LookupError (where it reads from is stated by `LispEnvProps.FindFirstInChain`) |
| LispEnv.SetAtF | lisp.php:348-354 | `setAt` keeps the number of frames (where it writes is stated by `LispEnvProps.SetAtIsLocal`) |
| LispEnv.UpdateF | lisp.php:321-326 | `update` keeps the number of frames (what it binds is stated by `LispEnvProps.UpdateBindsEach`) |
| LispEnv.Combined | lisp.php:308 | `array_combine` gives each parameter name once, and exactly the names given |
| LispEnv.PrimitiveTable | lisp.php:380-420 | every name the global frame binds is a primitive procedure |
| LispEnv.NewFrame | lisp.php:298-311 | a successful construction adds exactly one frame (what it binds, after `array_combine`, is stated by `LispEnvProps.NewFrameBindsLast` and `LispEnvProps.NewFrameRepeatedParameter`) |
| LispEnv.Store.constructor | lisp.php:428-432 | the frames start as the global frame and no ball exists yet |
| LispEnv.Store.SetAt | lisp.php:348-354 | the frames after the call are `SetAtF` of the frames before it; the ball counter is unchanged |
| LispEnv.Store.Update | lisp.php:321-326 | the frames after the call are `UpdateF` of the frames before it |
| LispEnv.Store.NewEnv | lisp.php:298-311 | `new Env` appends the frame `NewFrame` builds, binding the pairs of `array_combine` through `update`, and answers its index; or it answers `NewFrame`'s fault (an exception, or `Unmodelled` for a non-symbol parameter) and leaves the frames alone |
| LispEnv.Store.NewBall | lisp.php:367 | each `callcc` ball is new: its number is the count of earlier balls, and the frames are unchanged |
| LispEnvProps.Chain | lisp.php:328-336 | the frames `find` visits lie inside the arena |
| LispEnvProps.FirstHolder | lisp.php:329 | the first frame of a walk that binds the name; none exactly when no frame of the walk binds it |
| LispEnvProps.FindFirstInChain | lisp.php:328-336 | `find` answers the innermost frame of the chain that binds the name, and raises LookupError exactly when none does |
| LispEnvProps.SetAtIsLocal | lisp.php:348-354 | `setAt` changes one binding, in the frame itself or its immediate outer frame; no other frame and no `outer` link changes |
| LispEnvProps.LookupAfterSetAt | lisp.php:348-354 | when the outer frame does not bind the name, `setAt` of a non-null value makes the name read as that value |
| LispEnvProps.SetAtSkipsOwnBinding | lisp.php:349-350 | when a frame and its outer frame both bind the name, the write lands in the outer frame and the name still reads as the frame's own old value |
| LispEnvProps.SetAtKeepsOtherNames | lisp.php:348-354 | `setAt` of one name leaves the lookup of every other name, from every frame, unchanged |
| LispEnvProps.NewFrameArity | lisp.php:304-309 | a parameter list raises TypeError exactly when the number of arguments differs; with the right number a list of symbols always binds, and a list holding anything else is `Unmodelled` |
| LispEnvProps.NewFrameNumberParameter | lisp.php:304-309 | `(lambda (1) 1)` applied to 5 is `Unmodelled`, not an error: PHP's `array_combine` would bind the key `"1"` |
| LispEnvProps.NewFrameRest | lisp.php:301-302 | a symbol as the parameters receives the whole argument list |
| LispEnvProps.CombinedDistinct | lisp.php:308 | `array_combine` of distinct names is the names and arguments unchanged |
| LispEnvProps.CombinedLast | lisp.php:308 | `array_combine` pairs a name with the argument of its last occurrence |
| LispEnvProps.NewFrameOne | lisp.php:307-308 | a one-parameter list binds its argument with one `setAt` into the new frame |
| LispEnvProps.NewFrameBindsLast | lisp.php:304-309 | when the defining frame binds none of the parameters, each parameter is bound in the new frame to the argument of its last occurrence |
| LispEnvProps.NewFrameRepeatedParameter | lisp.php:307-308 | with `x` bound to 7 outside, `(lambda (x x) x)` applied to null and 5 writes only 5, over the outer `x`, and leaves the new frame empty |
| LispEnvProps.NewFrameOverwritesOuter | lisp.php:307-308 | when the defining frame binds a parameter's name, the argument overwrites that binding and the new frame stays empty |
| LispEnvProps.UpdateBindsEach | lisp.php:321-326 | `update` with distinct names that the outer frame does not bind binds each name, in the frame itself, to its own value |
| LispEnvProps.UpdateKeepsOthers | lisp.php:321-326 | `update` leaves every name it does not mention as it was, in every frame |
| LispEval.ApplyPrim | lisp.php:383-403 | a primitive never throws a ball, and any primitive called with too few arguments is a PHP error |
| LispEval.Arith | lisp.php:383-385 | `+`, `-` and `*` succeed exactly on two numbers and give a number; other operands are PHP type juggling the model does not follow |
| LispEval.Compare | lisp.php:388-392 | the comparisons and `=` succeed exactly on two numbers and give a boolean; other operands are PHP type juggling the model does not follow |
| LispEval.Eval | lisp.php:436-480 | evaluation never removes a frame or a ball |
| LispEval.EvalForm | lisp.php:440-478 | a turn of the loop never removes a frame or a ball |
| LispEval.EvalSeq | lisp.php:461-465 | the `begin` loop never removes a frame or a ball |
| LispEval.EvalArgs | lisp.php:467 | a successful `array_map` gives a list with one value per item, after the values already collected |
| LispEval.Apply | lisp.php:469-477 | a call never removes a frame or a ball |
| LispEval.Callcc | lisp.php:365-378 | `callcc` never lets the ball it made escape |
| LispMachine.EvalM | lisp.php:436-480 | the `while(true)` loop leaves the state and gives the outcome that `LispEval.Eval` computes from the old state |
| LispMachine.EvalSeqM | lisp.php:461-465 | the `foreach` of `begin` leaves the state and gives the outcome that `LispEval.EvalSeq` computes |
| LispMachine.EvalArgsM | lisp.php:467 | the `array_map` loop leaves the state and gives the outcome that `LispEval.EvalArgs` computes |
| LispMachine.ApplyM | lisp.php:108-110 | calling a procedure, primitive or escape closure leaves the state and gives the outcome that `LispEval.Apply` computes |
| LispMachine.CallccM | lisp.php:365-378 | the try/catch of `callcc` leaves the state and gives the outcome that `LispEval.Callcc` computes |
| LispEvalProps.EvalQuoteUnevaluated | lisp.php:444-446 | `quote` answers its operand unevaluated and changes nothing |
| LispEvalProps.EvalIfChoosesBranch | lisp.php:447-449 | `if` evaluates its test and then only the selected branch; replacing the branch not taken changes nothing |
| LispEvalProps.EvalIfWithoutAlternative | lisp.php:448-449 | a three-item `if` whose test is false answers null |
| LispEvalProps.EvalSeqLast | lisp.php:461-465 | `begin` answers the value of its last form, evaluated in the state the earlier forms left, unless an earlier form stopped |
| LispEvalProps.EvalEmptyBegin | lisp.php:461-465 | `(begin)` answers null and changes nothing |
| LispEvalProps.EvalSetUnbound | lisp.php:450-452 | `set!` of a name no frame binds raises LookupError before its expression runs, and changes nothing |
| LispEvalProps.EvalSetFound | lisp.php:450-453 | the `set!` step of `_eval`, unfolded: `set!` writes the value through `setAt` on the frame `find` answered, and answers `None` |
| LispEvalProps.EvalDefineBinds | lisp.php:454-457 | `define` of a non-null value makes the name read as that value when the outer frame does not bind it, and leaves every other name's lookup as it was |
| LispEvalProps.EvalAppliesProcedure | lisp.php:466-474 | the application step of `_eval`, unfolded: applying a user procedure continues with its body in a new frame over the procedure's frame, within the same loop |
| LispEvalProps.ApplyArityMismatch | lisp.php:304-305 | a procedure called with the wrong number of arguments raises TypeError and changes nothing |
| LispEvalProps.CallccCatchesOwnBall | lisp.php:365-378 | the try/catch of `callcc`, unfolded: `callcc` answers the value thrown to its own escape closure and passes every other ball through unchanged |
| LispEvalProps.CallccPassesOlderBalls | lisp.php:371-376 | a ball thrown by an escape closure made before this `callcc` is never caught by it |
| LispEvalProps.EscaperThrows | lisp.php:368 | calling an escape closure throws its ball with the first argument |
| LispEvalProps.CarCdrOfCons | lisp.php:397-399 | `car` and `cdr` take apart exactly what `cons` builds |
| LispEvalProps.NullIff | lisp.php:403 | `null?` holds exactly of the empty list, false and null, and of a list exactly when it is empty |
| LispEvalProps.PrimTooFewArguments | lisp.php:383-403 | any primitive called with too few arguments raises a PHP error |
| LispEvalProps.AppendLength | lisp.php:396-400 | `append` concatenates two lists, and `length` of the result is the sum of their lengths |
| LispEvalExamples.EvalArgsStep | lisp.php:467 | the `array_map` evaluates the head first, and the rest only if the head gave a value |
| LispEvalExamples.EvalApplication | lisp.php:475-476 | an application whose operator value is not a user procedure calls that value on the other items' values |
| LispEvalExamples.ApplyOneParameter | lisp.php:469-474 | a procedure of one parameter runs its body in a new frame binding that parameter |
| LispEvalExamples.EvalCallccForm | lisp.php:365-378 | `(call/cc (lambda (k) body))` runs body with k bound to a fresh escape closure, and turns that closure's ball into a value |
| LispEvalExamples.CallccOneParameter | lisp.php:365-378 | `callcc` on a one-parameter procedure binds that parameter to a fresh escape closure |
| LispEvalExamples.EvalPrimCall | lisp.php:466-477 | `(op n e)` evaluates e and applies the primitive to n and e's value |
| LispEvalExamples.ArgsOfPrimCall | lisp.php:467 | the items of `(op n e)` evaluate to the primitive, n and e's value, in order |
| LispEvalExamples.EvalEscape | lisp.php:368 | `(k n)` with k an escape closure throws that closure's ball with n |
| LispEvalExamples.ExampleLookups | lisp.php:328-346 | inside the nested `call/cc` lambdas, each name reads as its innermost binding, including the primitives of the global frame |
| LispEvalExamples.InnerExample | lisp.php:365-378 | the inner `call/cc` answers 3 when `escape` is thrown to, and passes the ball through when `throw` is |
| LispEvalExamples.EvalOuter5 | lisp.php:383-385 | `(+ 5 (* 10 c))` answers 5 + 10c, or c's escape |
| LispEvalExamples.OuterBodyExample | lisp.php:365-378 | the outer lambda's body answers 35 when `escape` is thrown to, and throws the outer ball with 3 when `throw` is |
| LispEvalExamples.NestedCallcc | lisp.php:365-378 | the nested `call/cc` examples answer 35 when `escape` is thrown to and 3 when `throw` is |
| LispSumSquares.EvalTest | lisp.php:466-477 | in a call of `sumsq-acc`, `(> start end)` answers whether `start` > `end`, through the primitive of the global frame, and changes nothing |
| LispSumSquares.EvalAccum | lisp.php:466-477 | `(+ (* start start) acc)` answers `start`² + `acc` and changes nothing |
| LispSumSquares.AccDone | lisp.php:447-449 | in a call of `sumsq-acc` with `start` > `end`, the body answers `acc` and changes nothing |
| LispSumSquares.NextFrame | lisp.php:298-311 | the frame of a recursive call of `sumsq-acc`: `setAt` writes the new `start` and `end` into the outer frame, which already binds them, and the new frame binds `acc` alone |
| LispSumSquares.CallPrepared | lisp.php:466-467 | the recursive call's items evaluate, left to right and without effects, to the procedure, `start` + 1, `end` and `start`² + `acc`, which build that frame |
| LispSumSquares.TailCall | lisp.php:466-474 | the recursive call continues `_eval`'s loop with the body in the new frame, without a nested call |
| LispSumSquares.AccStep | lisp.php:447-474 | with `start` ≤ `end`, the body continues with the same body, two steps later, in the next call's frame |
| LispSumSquares.AccLoop | tests-lisp.php:76-77 | from `start` = k, `end` = n and `acc` = a, `sumsq-acc` answers a + k² + … + n², given two steps of fuel per number and six more |
| LispSumSquares.DefineRangeBinds | lisp.php:454-457 | the definition of `sum-squares-range` binds it in the global frame and answers `None` |
| LispSumSquares.RangeFrame | lisp.php:298-311 | a call of `sum-squares-range` builds a frame binding `start` and `end`, over the global frame |
| LispSumSquares.RangeApplies | lisp.php:466-474 | `(sum-squares-range k n)` continues with the procedure's body in that frame |
| LispSumSquares.InnerDefine | lisp.php:454-457 | the inner definition binds `sumsq-acc` in the call's own frame and answers `None` |
| LispSumSquares.InnerCall | lisp.php:466-474 | `(sumsq-acc start end 0)` continues with the loop's body in a new frame |
| LispSumSquares.BeginTwo | lisp.php:461-465 | `(begin a b)` answers what b answers, in the state a leaves, when a answers a value |
| LispSumSquares.RangeBodyRuns | lisp.php:461-465 | the body of `sum-squares-range` answers the sum of the squares from `start` to `end` |
| LispSumSquares.SumSquaresRange | tests-lisp.php:75-79 | after the definition, which answers `None`, `(sum-squares-range k n)` answers k² + … + n², with fuel linear in the range |
| LispSumSquares.SumSquaresUpTo | tests-lisp.php:75-79 | `(sum-squares-range 1 n)` answers n(n+1)(2n+1)/6 with 2n + 10 steps |
| LispSumSquares.SumSquaresTest | tests-lisp.php:79 | `(sum-squares-range 1 3000)` answers 9004500500 |
| LispSumSquares.InitialIsFresh | lisp.php:428-432 | the global frame of `global_env()` binds `>`, `+` and `*` and none of the names the two procedures bind |
| LispExpand.Expand | lisp.php:484-547 | `expand` checks and rewrites each special form (stated by `LispCore.ExpandOut`, `LispExpandProps.ExpandRejectsMalformed`, `LispExpandProps.ExpandIfArity`, `LispExpandProps.ExpandIfGainsNone`, `LispExpandProps.ExpandLambdaWrapsBody` and `LispExpandProps.ExpandEmptyBegin`) |
| LispExpand.ExpandDefine | lisp.php:503-524 | `define` and `define-macro` (stated by `LispExpandProps.ExpandDefineFunction`, `LispExpandProps.DefineMacroNeedsTopLevel`, `LispExpandProps.DefineMacroRegisters` and `LispCore.DefineOut`) |
| LispExpand.ApplyMacro | lisp.php:544-545 | a macro call is applied to the unevaluated operands and its result is expanded again (stated by `LispAnd.ExpandMacroCall` and `LispCore.MacroOut`) |
| LispExpand.Let | lisp.php:613-624 | the `let` macro (stated by `LispExpandProps.LetRejectsBadBinding`, `LispExpandProps.LetRejectsProcedure`, `LispExpandProps.LetBuildsApplication` and `LispCore.LetOut`) |
| LispExpand.ExpandAll | lisp.php:497 | a successful `array_map(expand, ...)` gives one expanded item per item, after those already collected |
| LispExpand.LetVars | lisp.php:590-598 | `_unzip` gives the variable of each binding, in order |
| LispExpand.LetValues | lisp.php:590-598 | `_unzip` gives the value expression of each binding, in order |
| LispExpandProps.ExpandRejectsMalformed | lisp.php:486-540 | `()`, `(quote 1 2)`, `(if 1 2 3 4)`, `(set! x)`, `(define 3 4)`, `(lambda 3 3)` and `(lambda (x))` raise SyntaxError and change nothing |
| LispExpandProps.ExpandIfArity | lisp.php:492-496 | an `if` with other than two or three operands raises SyntaxError |
| LispExpandProps.ExpandIfGainsNone | lisp.php:493-495 | a three-item `if` expands as the same `if` with `None` added as its alternative |
| LispExpandProps.ExpandIfNotTopLevel | lisp.php:497 | the operands of an `if` are expanded below top level, whatever the `if` is |
| LispExpandProps.DefineMacroNeedsTopLevel | lisp.php:515-516 | `define-macro` below top level raises SyntaxError |
| LispExpandProps.DefineMacroRegisters | lisp.php:515-520 | at top level, `define-macro` evaluates its expansion in the global frame and registers a callable result, expanding to `None`; a result that is not callable raises SyntaxError |
| LispExpandProps.DefineMacroInIfFails | lisp.php:492-497 | `(if (= 1 2) (define-macro a 'a) (define-macro a 'b))` raises SyntaxError, although neither branch would run |
| LispExpandProps.ExpandAllStep | lisp.php:497 | `array_map(expand, ...)` expands the head first, and the rest only if the head succeeded |
| LispExpandProps.ExpandAllAtoms | lisp.php:487-488 | symbols and numbers expand to themselves and change nothing |
| LispExpandProps.ExpandDefineFunction | lisp.php:507-510 | `(define (f a...) body...)` and `(define-macro (f a...) body...)` both expand as `(define f (lambda (a...) body...))` |
| LispExpandProps.ExpandLambdaWrapsBody | lisp.php:539-540 | a lambda with several body forms expands its body as one `begin` |
| LispExpandProps.ExpandEmptyBegin | lisp.php:526-527 | `(begin)` expands to `None` |
| LispExpandProps.LetRejectsProcedure | lisp.php:619 | a `let` whose binding position holds a procedure raises SyntaxError, because `all` visits the procedure's environment object |
| LispExpandProps.LetRejectsBadBinding | lisp.php:619 | a `let` with a binding that is not a two-item list headed by a symbol raises SyntaxError and changes nothing |
| LispExpandProps.LetExampleFails | lisp.php:613-624 | `(let ((a 1) (b 2 3)) (+ a b))` raises SyntaxError |
| LispExpandProps.LetBuildsApplication | lisp.php:613-624 | a well-formed `let` becomes a lambda over its variables applied to its values, both expanded, and that application is expanded again |
| LispExpandProps.DefineMacroLambdaRegisters | lisp.php:512-520 | a top-level `(define-macro name (lambda vars body))` registers, under name, the procedure over vars whose body is the expanded body, closed over the global frame; the frames do not change |
| LispQuasi.ExpandQuasi | lisp.php:571-588 | `expand_quasiquote` never throws a ball |
| LispQuasiProps.ExpandQuasiBuildsTemplate | lisp.php:571-588 | every template with a meaning expands without error into a `quote`/`cons`/`append` construction that builds exactly that meaning |
| LispQuasiProps.SpliceAtTopFails | lisp.php:576 | `` `,@L `` raises SyntaxError |
| LispQuasiProps.SpliceExample | lisp.php:580-582 | `` `(testing ,@L testing) `` with L = (1 2 3) builds `(testing 1 2 3 testing)` |
| LispQuasiProps.UnquoteExample | lisp.php:577-579 | `` `(testing ,L testing) `` with L = (1 2 3) builds `(testing (1 2 3) testing)` |
| LispAnd.TemplateExpands | lisp.php:630 | the template `` `(if ,(car args) (and ,@(cdr args)) #f) `` expands to `(cons 'if (cons (car args) (cons (cons 'and (append (cdr args) '())) (cons '#f '()))))`, whatever the fuel |
| LispAnd.ExpandCallEach | lisp.php:546-547 | an application of a name that is neither a keyword nor a macro expands to the application of its expanded operands |
| LispAnd.ExpandIfEach | lisp.php:492-497 | a four-item `if` expands to the `if` of its expanded operands |
| LispAnd.BodyExpands | lisp.php:628-630 | the `and` procedure's body expands with its quasiquote replaced by that construction and nothing else changed, when no macro shadows the names it calls |
| LispAnd.AndBootstrap | lisp.php:626-631 | loading lisp.php expands its `define-macro and` at top level to `None` and leaves the frames as they were and the macro table with `let` and the `and` procedure over `args`, closed over the global frame |
| LispAnd.LoadedIsReady | lisp.php:626-631 | after loading, `and` names that procedure, `let` is still the built-in macro and the global frame binds the primitives the procedure calls |
| LispAnd.ApplyAndProc | lisp.php:628 | calling the `and` procedure runs its body in a new frame binding `args` to the list of arguments, over the global frame |
| LispAnd.ConstructionValue | lisp.php:630 | in that frame, the construction evaluates to `(if x (and rest...) #f)` for the arguments x, rest... |
| LispAnd.BodyValue | lisp.php:628-630 | in that frame, the body gives `#t` for no argument, the argument itself for one, and `(if x (and rest...) #f)` for more |
| LispAnd.ApplyAndMacro | lisp.php:545 | calling the registered `and` gives that result and leaves its frame in the arena |
| LispAnd.ExpandMacroCall | lisp.php:544-545 | a form headed by a macro name expands what the macro returns, at the same level |
| LispAnd.ExpandAnd | lisp.php:544-545 | `(and x...)` expands exactly as the macro's result for the unexpanded arguments does: `(and)` as `#t`, `(and x)` as x, `(and x y ...)` as `(if x (and y ...) #f)` |
| LispAnd.ExpandEmptyAnd | tests-lisp.php:92 | `(and)` expands to `#t`, which evaluates to true |
| LispCore.ExpandOut | lisp.php:484-547 | with only the built-in `let` in the macro table, expanding input that has no quasiquote or `define-macro` form in an expanded position leaves the table unchanged and, when it succeeds, gives a core form: `(quote d)`, a four-item `if`, `(set! v e)` or `(define v e)` over a symbol, `(lambda params e)`, a `begin` with at least one expression, or an application whose head is not `define-macro`, `quasiquote` or `let`, all of whose evaluated parts are core forms again; an atom comes back unchanged and a list never comes back as a symbol |
| LispCore.ListOut | lisp.php:489-524 | the same for a list headed by `quote`, `if`, `set!` or `define` |
| LispCore.FormOut | lisp.php:525-547 | the same for a `begin`, a `lambda`, a `let` call or an application |
| LispCore.ExpandIfOut | lisp.php:492-497 | a plain `if` of three or four items expands to a four-item `if` of core forms, the missing else filled with `None` |
| LispCore.SetOut | lisp.php:498-502 | a plain `(set! v e)` expands to `(set! v e')` with e' a core form |
| LispCore.DefineOut | lisp.php:503-524 | a plain `define`, after rewriting the function shorthand, expands to `(define v e)` with v a symbol and e a core form, and leaves the table unchanged |
| LispCore.BeginOut | lisp.php:525-532 | a plain `begin` with expressions expands each of them, at the same level, to a core form |
| LispCore.LambdaOut | lisp.php:533-540 | a plain `lambda` expands to `(lambda params e)` with e the core form of its body, wrapped in `begin` when it has several expressions |
| LispCore.MacroOut | lisp.php:544-545 | a `let` call expands what `let` returns, at the same level, to a core form |
| LispCore.AppOut | lisp.php:546-547 | an application of a plain head that is no keyword and no macro expands item by item to core forms |
| LispCore.AllOut | lisp.php:546-547 | `array_map(expand, ...)` over plain items keeps the results so far and pairs each later item with its expansion |
| LispCore.AllOutFresh | lisp.php:546-547 | `array_map(expand, ...)` from scratch gives one result per item, each the expansion of its item |
| LispCore.LetOut | lisp.php:613-624 | `let` on plain arguments leaves the table unchanged and returns a plain list, so expanding it again keeps the guarantee |
| LispCore.CorePlain | lisp.php:544-545 | a core form is plain input, so the expanded parts a macro puts into its result expand again |
| LispCore.QuasiquoteKeepsUnquoted | lisp.php:577-579 | `` `,e `` expands to e itself, with nothing in e expanded |
| LispCore.QuasiquoteLeavesLet | lisp.php:541-543 | so `` `,(let ((a 1)) a) `` expands to a `let` call, which is not a core form |
| LispReader.Scan | lisp.php:147 | one tokenizer match splits the line into skipped white space, a token that does not start with white space, and the rest; the three parts make up the line |
| LispReader.LexAsWritten | lisp.php:147 | the tokenizer with the string pattern as written (stated by `LispReaderProps.LexAsWrittenStallsOnString` and `LispReaderProps.LexAsWrittenStallsOnHi`) |
| LispReader.Lex | lisp.php:147 | the tokenizer with the corrected string pattern (stated by `LispReaderProps.LexStringLiteral`, `LispReaderProps.LexHi` and `LispRoundTrip.LexToken`) |
| LispReader.ReadLine | lisp.php:136-142 | refilling the buffer keeps the file's lines and never adds input; a non-empty new line consumes some |
| LispReader.NextTokenF | lisp.php:155-171 | a token is never empty and always consumes input; no answer adds input |
| LispReader.NextTokenUnfold | lisp.php:155-171 | one turn of the `next_token` loop: refill an empty buffer, stop at end of input, return a real token, or drop an empty token or comment and go on |
| LispReader.ReadF | lisp.php:197-223 | `read` never adds input |
| LispReader.ReadAheadF | lisp.php:199-219 | only a token can start a datum, and reading one never adds input |
| LispReader.Atom | lisp.php:226-237 | `atom` (stated by `LispReaderProps.ToStringOfAtom`, `LispReaderProps.AtomOfToString` and `LispRoundTrip.AtomText`) |
| LispReader.ToString | lisp.php:239-256 | `to_string` (stated by `LispReaderProps.ToStringOfList`, `LispReaderProps.ToStringsAll`, `LispReaderProps.ToStringOfListFails`, `LispReaderProps.ToStringOfWideInteger` and `LispRoundTrip.ReadBack`) |
| LispReader.ReadListF | lisp.php:200-209 | the list loop never adds input |
| LispReader.StringFile.constructor | lisp.php:130-134 | the file holds the lines of the text, with the index at the first |
| LispReader.StringFile.ReadLine | lisp.php:136-142 | `readline` hands out the next line and advances, or answers '' past the last line and stays |
| LispReader.InPort.constructor | lisp.php:150-153 | the port starts with the file and an empty line buffer |
| LispReader.InPort.Refill | lisp.php:158-160 | an empty buffer takes the next line of the file; a non-empty one is kept |
| LispReader.InPort.NextToken | lisp.php:155-171 | the token and the new buffer and file position are those `NextTokenF` gives for the old ones |
| LispReader.Read | lisp.php:197-223 | `read` on a port gives the datum and leaves the port as `ReadF` says |
| LispReader.ReadAhead | lisp.php:199-219 | `$read_ahead` gives the datum and leaves the port as `ReadAheadF` says |
| LispReaderProps.LexAsWrittenStallsOnString | lisp.php:147 | with the regex as written, a string literal starting with an ordinary character matches an empty token and consumes nothing |
| LispReaderProps.LexAsWrittenStallsOnHi | lisp.php:147 | with the regex as written, `"hi")` matches an empty token and consumes nothing |
| LispReaderProps.LexStringLiteral | lisp.php:147 | with the intended regex, a quoted text without quotes or backslashes is one token, followed by the rest of the line |
| LispReaderProps.LexHi | lisp.php:147 | with the intended regex, `"hi")` gives the token `"hi"` and leaves `)` |
| LispReaderProps.ReadQuoteShorthand | lisp.php:212-213 | a `'`, `` ` ``, `,` or `,@` token followed by a datum reads as the two-item list of the quote's name and the datum |
| LispReaderProps.ReadUnexpectedClose | lisp.php:210-211 | a `)` where a datum should start raises SyntaxError |
| LispReaderProps.ReadEofAtTop | lisp.php:221-222 | at top level, the end of input reads as the eof symbol |
| LispReaderProps.ReadEofInList | lisp.php:214-215 | the end of input inside an open list raises SyntaxError |
| LispReaderProps.ReadEmptyText | lisp.php:221-222 | an empty text reads as the eof symbol |
| LispReaderProps.ToStringOfAtom | lisp.php:226-256 | printing what `atom` made of `#t`, `#f`, a symbol token or the text of an integer below fifteen digits gives the token back |
| LispReaderProps.AtomOfToString | lisp.php:226-256 | a boolean, an integer below fifteen digits or a symbol prints, and `atom` of its printed form gives the value back |
| LispReaderProps.ToStringOfWideInteger | lisp.php:253-254 | an integer of fifteen or more digits is not printed as plain digits (`Unmodelled`) |
| LispReaderProps.ToStringOfList | lisp.php:249-250 | when every item prints, a list prints as the items' texts, joined by single spaces, inside parentheses |
| LispReaderProps.ToStringsAll | lisp.php:250 | when every item prints, `array_map` gives the items' texts in order |
| LispReaderProps.ToStringOfListFails | lisp.php:249-250 | a list fails to print exactly as its first item that cannot print |
| LispReaderProps.ToStringsFailsAt | lisp.php:250 | `array_map` fails as its first item that cannot print |
| LispRoundTrip.LexToken | lisp.php:147 | on a line made of at most one space, a parenthesis or a bare token, and then the end, a space or `)`, one tokenizer match skips the space and takes exactly that token |
| LispRoundTrip.NextTokenOn | lisp.php:155-171 | with such a line in the buffer, `next_token` answers that token and keeps the rest of the line |
| LispRoundTrip.AtomText | lisp.php:226-246 | a printable boolean, integer or symbol prints as one bare token that is not a quote shorthand and not the eof name, and `atom` of that token is the value |
| LispRoundTrip.FirstToken | lisp.php:155-171 | the first token of a printed datum is `(` or the whole atom, never `)` |
| LispRoundTrip.ReadPrinted | lisp.php:197-223 | `read` on a line holding the text printed for a printable datum, then the end, a space or `)`, gives the datum and leaves the port at that rest |
| LispRoundTrip.ReadTail | lisp.php:200-209 | the list loop of `$read_ahead` on the printed items of a list and its `)` appends exactly those items, in order, to what it had read |
| LispRoundTrip.OneLine | lisp.php:239-256 | printed text of a printable datum is never empty and holds no newline |
| LispRoundTrip.ExplodeWhole | lisp.php:130-134 | a text without newlines is one line of a `StringFile` |
| LispRoundTrip.ReadRefills | lisp.php:155-160 | a port over one line reads from that line once it is in the buffer |
| LispRoundTrip.ReadBack | lisp.php:197-256 | `read` on a port over the text `to_string` prints for a boolean, a plainly printed integer, a bare symbol or a list of them gives that datum back and uses up the text |
| LispRoundTrip.StringAtomIsSymbol | lisp.php:226-250 | the text printed for the string `hi` is `"hi"`, and `atom` of that token is a symbol, not the string |

## Left out

- I/O is not part of this model: `repl`, `load`, `raw_input`, `readchar`, stdin, files, and the port and output primitives (`open-input-file`, `write`, `display`, `read`, `read-char`, `eof-object?`). The `repl()` call made when `lis.php` is loaded is left out too.
- Floating point is not modelled. Numbers are unbounded integers, where PHP floats lose precision past 2^53. A numeric literal with a fraction or exponent is kept as opaque text (`Real`), and arithmetic on it is `Unmodelled`. `sqrt` is left out, and `/` is modelled only when the division is exact.
- LispEnv.NewFrame and LispEnv.Store.NewEnv: a parameter list holding something other than symbols answers `Unmodelled`. PHP raises no error there: `array_combine` turns a number, boolean, null or string into a string key and `update` binds it, so `` (`,(lambda (1) 1) 5) `` answers 1 in PHP. Such a lambda can only reach `_eval` unexpanded, under a quasiquote's unquote.
- LispValues.Truthy: a float literal whose value underflows to zero as a PHP float, such as `1e-400`, counts as true because its text has a non-zero digit. PHP's `(float)` makes it 0.0, which is false, so `(if 1e-400 1 2)` answers 2 in PHP and 1 in the model.
- LispEval.Callcc: a ball is matched by its number, that is by identity. `lisp.php` compares `$w == $ball` loosely, property by property, so two RuntimeWarning objects made at the same line with the same stack and loosely equal `retval`s would compare equal there; that case is not followed.
- LispEval.ApplyPrim: `lisp.php`'s `length` answers a PHP int, which the model does not tell apart from a float holding the same number. The two differ only under `eq?`, which is not among the modelled primitives, and in printing from fifteen digits on, which is `Unmodelled`.
- LisEval.Compare: `eq?` (`===`) on two operands that are not both numbers compares symbols and closures by object identity and arrays item by item; that is `Unmodelled`.
- LisEval.Arith, LisEval.Compare and LispEval.ApplyPrim do not model PHP's type juggling on operands that are not numbers (arrays, booleans, null, objects). Such calls answer `Unmodelled` instead of PHP's result or error.
- LisReader.NumberText and LispReader.ToString: an integer-valued float of fifteen or more digits prints in PHP's exponent notation (`1.0E+14`), which is not modelled (`Unmodelled`).
- LisReader.ToString and LispReader.ToString: a float that does not hold an integer (a `Real`) prints through PHP's float formatting, which is not modelled (`Unmodelled`).
- The float -0.0 is not modelled. PHP prints it as `-0`, while the model has only the integer 0 and prints `0`. It arises from the literal `-0`, and from any computation on the floats `atom` makes that gives -0.0, such as `(* -1 0)`.
- LispReader.NextTokenF and LispReader.InPort.NextToken use the corrected string pattern of the Findings row. With the pattern as written, `next_token` loops forever on a line such as `"hi")`; LispReader.LexAsWritten models that pattern and LispReaderProps.LexAsWrittenStallsOnHi shows the stall.
- LisEval.NameOf: a `set!` or `define` variable that is neither a symbol nor missing is converted by PHP's `(string)`; this is `Unmodelled`.
- LisEval.Bind: a parameter list holding something other than symbols is `Unmodelled`.
- Loose comparison of special-form heads (`$x[0] == 'quote'`, `S::quote($x[0])`) is modelled as a symbol-name test. PHP's looser matches, such as `true == 'quote'`, are not followed.
- `lisp.php`'s primitive table is modelled only in part. The kept primitives are `+ - * < > <= >= = not length car cdr cons append list null? call/cc`. The others (`/`, `sqrt`, `equal?`, `eq?`, `list?`, `symbol?`, `boolean?`, `pair?`, `port?`, `apply`, `eval`, `load` and the port primitives) are absent from the global frame. In `lis.php` every primitive is modelled.
- LispReader.ToString: a procedure prints through `Procedure::__toString`, which lists its frame's keys in insertion order. Frames are maps here, with no order, so printing a procedure, or a list holding one, is `Unmodelled`.
- Error messages (`json_encode`, `to_string` inside messages) are not modelled; only the kind of error is.
- The `S::$instances` cache is host plumbing for symbol objects, and symbols are compared by name. `S::addSymbol` is not plumbing: `macro_table` calls it for every macro it registers (lisp.php:606-607), and it sets the entry of `S::$syms` (lisp.php:69-74) that every special-form and eof test reads through `__callStatic` (lisp.php:76-79).
- LispExpand.Expand and LispEval.EvalForm: the special-form heads are fixed. In `lisp.php` a macro named `set`, `_if`, `define_macro`, `unquote_splicing` or `eof_object` overwrites that entry with its own name. After `(define-macro set (lambda args 1))`, `expand` takes `(set x 1)` for the `set!` form, and `(set! x 1)` becomes an application of the unbound `set!`, which raises LookupError. The model applies the macro to `(set x 1)` and still assigns for `(set! x 1)`. The other names of `S::$syms` map to themselves, so macros named after them change nothing.
- Every evaluation, expansion and quasiquote function takes a `fuel` bound in place of PHP's unbounded recursion and `while(true)`. A result reached with fuel to spare is the source's; an exhausted bound answers `OutOfFuel`. So non-termination, such as a deep user recursion, is not distinguished from running out of fuel.
- `Outer` in both environment modules reads an `outer` index that is not below the frame's own index as "no outer frame". Frames are only ever appended after the frame they extend, so this case does not arise. That invariant is not proved.
- The test drivers tests-lisp.php and tests.php are not run. These of their cases are lemmas: tests.php:15-16 (LisEvalExamples.BeginDefineSetExample, LisEvalExamples.LambdaDoubleExample); tests-lisp.php:45-53 (LispExpandProps.ExpandRejectsMalformed, LispExpandProps.DefineMacroInIfFails), 75-79 (LispSumSquares.SumSquaresTest), 82-85 (LispEvalExamples.NestedCallcc), 89 (LispExpandProps.LetExampleFails), 92 (LispAnd.ExpandEmptyAnd) and 102-104 (LispQuasiProps.SpliceExample, LispQuasiProps.UnquoteExample, LispQuasiProps.SpliceAtTopFails). The other cases have no lemma. Among them are the float and `sqrt` cases (tests-lisp.php:7 and 66-74), which the model cannot express. The rest are the programs of tests.php:7-43 and tests-lisp.php:7-43 (`fact`, `compose`, `repeat`, `combine`, `zip`, `riff-shuffle`), the cases at tests-lisp.php:54-65 (`twice`, `lyst`, the one-armed `if`, `account`), tests-lisp.php:80-81 and 86-88, 90-91 and 93-101, and 105-110 (`unless`, quoting, comments, `metamacro`).
- LispSumSquares writes out the definitions of tests-lisp.php:75-78 as `expand` leaves them, with the two body forms of `sum-squares-range` wrapped in `begin`. That `expand` gives exactly these forms is not proved.
- The text of the `and` definition (lisp.php:628-631) is not run through the reader: LispAnd.AndDefinition writes out the datum `read` makes of it, with `#t` and `#f` as booleans and the quote shorthands as `quasiquote`, `unquote` and `unquote-splicing` lists.
- LispRoundTrip.ReadBack covers booleans, integers PHP prints as plain digits, bare symbols and lists of them. Strings read back as symbols (LispRoundTrip.StringAtomIsSymbol). Floats other than integers and procedures print as `Unmodelled`. A symbol whose name holds white space, a parenthesis or a quote character, or spells `#t`, `#f`, a number or the eof name, reads back as something else.
- LispCore.ExpandOut is stated for the macro table before `lisp.php` defines `and`, and for input with no quasiquote or `define-macro` form in an expanded position. A quasiquote can leave any form unexpanded (LispCore.QuasiquoteLeavesLet), and a macro from `define-macro` may return anything.
- LispAnd.ExpandAnd and LispAnd.ExpandEmptyAnd are stated for a global frame that does not bind `args`. When it does, `setAt` writes the argument list into the global frame instead of the call's frame, which these lemmas do not describe.
- `lis.php`'s tests also call `length`, which `lis.php` does not define (it defines `len`). Those tests are not modelled.

## Findings

| source | as written | input that shows it | evidently intended | confidence | as-written member | corrected member |
|---|---|---|---|---|---|---|
| lisp.php:147 | the string alternative `\"(?:[\\].\|[^\"])*\"` reaches PCRE as `"(?:[\].\|[^"])*"`. There `[\].\|[^"]` is one character class holding `]`, `.`, `\|`, `[`, `^` and `"`. So a string literal whose first character is outside that class matches an empty token and consumes nothing, and `next_token` loops forever on that line | the line `"hi")`, as in a call with a string argument | `"(?:\\.\|[^\\"])*"`: a backslash pair, or any character but a backslash or a quote, up to the closing quote | not executed | LispReaderProps.LexAsWrittenStallsOnHi | LispReaderProps.LexStringLiteral |
