# golox evaluator in Dafny

This project models the tree-walking evaluator of golox, an interpreter for a
small Lox-like scripting language written in Go. The evaluator works one node
kind at a time:

- It evaluates the expression nodes: literal, grouping, unary, binary,
  logical, variable, assignment and call.
- It runs the statement nodes: print, expression, var declaration, block, if,
  while, function declaration and return.
- It runs them against a chain of lexical environments, and it has the value
  helpers `getTruthy`, `isNumber`, `isString`, `toNumber` and `toString`.

Layout:

- `ast.dfy` (module `Ast`): tokens, operators, runtime values and the syntax
  tree.
  - A function value `Fn(id, decl, closure)` pairs a declaration with the
    environment it closes over.
  - An environment (`Env`) is a non-empty chain of scope indices, innermost
    first.
- `values.dfy` (module `Values`):
  - truthiness, the type tests and conversions;
  - what `!`, unary `-` and the binary operators compute from evaluated
    operands;
  - the exact error messages.

  Errors are a `RuntimeError(token, msg)` as in Go, or `Panic` for the crash
  of a failed Go type assertion.
- `environment.dfy` (module `Environment`): all scopes live in one arena, a
  sequence of name-to-value maps, so a closure can keep a block's scope alive
  and share it.
  - `Define` writes the innermost scope only.
  - `Get` and `Assign` (Env.Set) walk outward to the nearest binding, or fail
    with an undefined-variable error, whose text "undefined variable
    '<name>'" is assumed, since env.go is not part of this model.
- `semantics.dfy` (module `Semantics`): the reference semantics, as mutually
  recursive functions over a `State`. The state is the scope arena, the values
  printed so far and a counter of function values created.
  - Go's panics become results: `Err`/`Abort` for errors, and the `Returned`
    outcome for the `FunctionReturn` panic of `return`.
  - Statements pass `Returned` on unchanged, and only a call consumes it.
  - Each step consumes one unit of fuel, because neither `while` nor
    recursion needs to terminate.
- `interpreter.dfy` (module `Interpreter`): the evaluator in the form the Go
  code has. Class `Interpreter` holds the mutable state (scope arena, output,
  next id). It has one method per `Run` method and per `Eval` method of the
  Go code, except the literal, grouping and variable `Eval` methods, which are
  arms of `Interpreter.Eval`. It loops where Go loops:
  - the statements of a block;
  - `while`;
  - the argument list of a call.

  It also loops over the parameter bindings of a call. That loop models the
  call contract that "## Left out" describes, not code in interpreter.go.

  Each method is proved to leave exactly the state, and return exactly the
  value, that the reference semantics gives for the state it started in.
- `properties.dfy` (module `Properties`): the behaviour the evaluator
  promises, as lemmas over the semantics:
  - operand order and short-circuiting;
  - shadowing and `var` without an initializer;
  - `return` as a non-local exit;
  - the checks and order of a call;
  - closures.
- `finding.dfy` (module `ClosureFinding`): function declarations as the Go
  code writes them (see Findings).
- `examples_programs.dfy` (module `ExamplePrograms`): small programs run
  through the semantics:
  - shadowing;
  - the counter closure that shares its block's scope;
  - an arity mismatch;
  - assignment to an undeclared name.

Two behaviours of the code worth knowing:

- A call evaluates its callee, then all its arguments, and only then checks
  that the callee is callable and that the arity matches.
- Unary `-` on a non-number is a Go type-assertion crash (`Panic`), not a
  RuntimeError.

One behaviour departs from the code on purpose: a function declaration binds
a new function value, with its own closure, on every execution. This is the
corrected behaviour of the Findings row.

## Model

| member | source | states |
|---|---|---|
| Values.Truthy | golox/interpreter.go:236-246 | false exactly for `nil` and `false`; true for numbers (including 0), strings (including ""), functions and `true` |
| Values.ToNumber | golox/interpreter.go:258-264 | on a number, returns the number it holds |
| Values.ToString | golox/interpreter.go:266-272 | on a string, returns the string it holds |
| Values.IsNumber | golox/interpreter.go:248-251 | true exactly when the value holds a number; such a value is no string |
| Values.IsString | golox/interpreter.go:253-256 | true exactly when the value holds a string |
| Values.ArityMessageShape | golox/interpreter.go:226 | the arity error text is "expect ", the expected count in decimal, " arguments but got ", then the count given in decimal, each at its position, and both decimal parts read back as the two counts |
| Values.ApplyUnary | golox/interpreter.go:116-127 | `!` yields a boolean that is the negation of the operand's truthiness; `-` succeeds exactly on numbers, with the additive inverse; on any other operand it fails with a Panic, not a RuntimeError |
| Values.Arithmetic | golox/interpreter.go:150-175 | on two numbers a numeric operator fails exactly for `/` with a zero divisor ("divide by zero" at the operator); otherwise `-`, `/`, `*` give the difference, quotient and product, and `>`, `>=`, `<`, `<=` the truth of the comparison |
| Values.ApplyBinary | golox/interpreter.go:130-184 | `+` succeeds exactly on two numbers (the sum) or two strings (the concatenation), else fails with "operands must be two numbers or two strings"; the other arithmetic and comparison operators fail with "operands must be numbers" unless both operands are numbers, and this type check happens before the zero check of `/`; `/` fails exactly on a zero divisor and otherwise gives the quotient; on two numbers every numeric operator gives what Arithmetic gives; `==`/`!=` never fail |
| Values.NatToString | golox/interpreter.go:226 | the rendering of a count used in the arity message is a non-empty string of decimal digits with no leading zero |
| Values.Digit | golox/interpreter.go:226 | a digit below ten renders as the character of that value |
| Values.DecimalRoundTrip | golox/interpreter.go:226 | the rendered count reads back as the same count |
| Values.EqualityIsExact | golox/interpreter.go:176-179 | `==` is value equality, `!=` is its exact negation, `1 == "1"` is false and `nil == nil` is true |
| Values.DoubleBang | golox/interpreter.go:119-120 | `!!v` is the truthiness of `v` |
| Values.ComparisonsAgree | golox/interpreter.go:164-175 | `a > b` equals `b < a` and is the negation of `a <= b`; `a >= b` equals `b <= a` and is the negation of `a < b` |
| Environment.Nearest | golox/interpreter.go:195 | the position of the first scope on the chain that binds the name, with no earlier scope binding it |
| Environment.Lookup | golox/interpreter.go:195 | finds a value exactly when some scope on the chain binds the name, and the value is the nearest binding's |
| Environment.Define | golox/interpreter.go:50 | the innermost scope gains or overwrites the binding; no other scope changes |
| Environment.Get | golox/interpreter.go:194-196 | succeeds exactly when the name is bound on the chain, with the nearest binding's value; otherwise "undefined variable '<name>'" at the name's token |
| Environment.Assign | golox/interpreter.go:104 | succeeds exactly when the name is bound on the chain, otherwise "undefined variable '<name>'"; overwrites the nearest binding with the value and changes no other scope, so a shadowed outer binding keeps its value; never creates or removes a binding |
| Environment.LookupFrame | golox/interpreter.go:55-60 | a lookup depends only on the scopes the chain refers to |
| Environment.NearestByKeys | golox/interpreter.go:104 | where the nearest binding is found depends only on which scopes bind the name |
| Environment.UndefinedMessageShape | golox/interpreter.go:194-196 | the undefined-variable error text is "undefined variable '", the name, then "'", so the name can be read back from it and two different names never give the same text (the text itself is assumed) |
| Environment.GetAfterDefine | golox/interpreter.go:45-51 | after a definition the name reads back as the defined value |
| Environment.GetOtherAfterDefine | golox/interpreter.go:45-51 | after a definition every other name reads as before |
| Environment.GetAfterSet | golox/interpreter.go:102-106 | after a successful assignment the name reads back as the assigned value, and every other name reads as before |
| Environment.DefineOffChain | golox/interpreter.go:50 | a definition in a scope a chain does not refer to changes no lookup from that chain |
| Environment.DefineInFreshScope | golox/interpreter.go:55-60 | a definition in a new innermost scope changes nothing visible from the enclosing environment |
| Semantics.Eval | golox/interpreter.go:102-232 | evaluation never removes a scope, only appends to the output, and never reuses a function id |
| Semantics.EvalArgs | golox/interpreter.go:218-221 | on success there is one value per argument; the state only grows |
| Semantics.EvalOptional | golox/interpreter.go:46-49 | a missing initializer or return value is `nil`, with the state unchanged; the state only grows |
| Semantics.CallValue | golox/interpreter.go:222-231 | applying a value to arguments only grows the state, whether the call fails its callable or arity check or invokes the function |
| Semantics.Invoke | golox/interpreter.go:228 | a call activation only grows the state |
| Semantics.BindParams | golox/interpreter.go:228 | binding the parameters changes only the activation's scope, which gains exactly the parameter names |
| Semantics.BindParamsKeepsOthers | golox/interpreter.go:228 | a name that is no parameter keeps its value |
| Semantics.BindParamsBindsArgument | golox/interpreter.go:228 | the `i`-th parameter is bound to the `i`-th argument, unless a later parameter has the same name |
| Semantics.Exec | golox/interpreter.go:32-98 | running a statement never removes a scope, only appends to the output, and never reuses a function id |
| Semantics.ExecSeq | golox/interpreter.go:57-59 | running statements in order only grows the state |
| Properties.EvalDoubleBang | golox/interpreter.go:116-120 | `!!e` evaluates `e` once and yields its truthiness as a boolean; an error in `e` is passed on |
| Properties.BinaryOperandOrder | golox/interpreter.go:130-133 | the left operand is evaluated first, then the right one in the state the left left behind, and then the operator is applied; an operand's error is the result |
| Properties.ShortCircuit | golox/interpreter.go:200-212 | `or` with a truthy left value and `and` with a falsey one yield the left result, state included, without evaluating the right operand; otherwise the result is the right operand's |
| Properties.VarWithoutInitializer | golox/interpreter.go:45-51 | `var x;` finishes normally, prints nothing and binds `nil` |
| Properties.VarDeclIsLocal | golox/interpreter.go:45-51 | a `var` anywhere, with or without an initializer, binds in its environment's innermost scope only: from any chain not referring to that scope every name reads as after the initializer; from its environment the name reads as the initializer's value |
| Properties.BlockDeclarationIsLocal | golox/interpreter.go:55-60 | a `var` in a block, with any initializer, binds in the block's new scope: from the enclosing environment every name reads as after the initializer, the block sees the new value, and an initializer's error stops the block; proved for a block whose only statement is the `var` — a `var` after other statements is covered by VarDeclIsLocal in the block's environment |
| Properties.EvalArgsSnoc | golox/interpreter.go:218-221 | the arguments are evaluated left to right: `args + [last]` evaluates `args`, then `last` in the state they left, whose value comes last; the first error stops |
| Properties.ParameterReadsAsArgument | golox/interpreter.go:228 | inside a call each parameter reads as its argument, unless a later parameter has the same name |
| Properties.ExecSeqAppend | golox/interpreter.go:57-59 | running `ss + rest` runs `ss` and then `rest` only if `ss` finished normally |
| Properties.ReturnCarriesValue | golox/interpreter.go:92-98 | `return` yields `Returned` with its expression's value, or `nil` without one; an error in the expression is passed on |
| Properties.ReturnEndsBlock | golox/interpreter.go:55-60 | a `return` in a block ends the block with what the statements up to it gave; the statements after it do not run |
| Properties.ReturnPassesThroughIfAndWhile | golox/interpreter.go:64-81 | with a truthy condition `if` passes on its true branch's result unchanged; with a falsey one it passes on its false branch's result, or finishes normally without one; a `while` whose body returns or fails ends with that result without testing its condition again, and a falsey condition ends it normally |
| Properties.CallChecks | golox/interpreter.go:216-232 | the callee is evaluated first (an error there skips the arguments), then the arguments; a non-callable callee fails with "can only call functions and classes" and an arity mismatch with "expect N arguments but got M", without invoking the function |
| Properties.CallBoundary | golox/interpreter.go:17-24 | the call consumes the `return` signal: its value is the returned value, `nil` on normal completion, and an error stays an error |
| Properties.DeclarationSeesItself | golox/interpreter.go:85-88 | a declaration binds a function value closing over the current environment under its name there; from a call's scope, whose parent is the closure, the name finds that value unless a parameter shadows it |
| Properties.DeclarationsKeepTheirClosures | golox/interpreter.go:85-88 | two executions of one declaration create two distinct function values, each closing over the environment its own execution ran in |
| Properties.ArithmeticExamples | golox/interpreter.go:142-163 | `2 + 3 * 4` is 14, `1 / 0` fails with "divide by zero", `"a" + 1` fails with "operands must be two numbers or two strings" |
| Interpreter.Interpreter.constructor | golox/interpreter.go:32-98 | the interpreter starts with one empty global scope, no output and no function values |
| Interpreter.Interpreter.Exec | golox/interpreter.go:32-98 | dispatching a statement leaves the state and outcome the semantics gives |
| Interpreter.Interpreter.ExecuteStatements | golox/interpreter.go:57-59 | the loop over a statement list leaves the state and outcome that running the list in order gives |
| Interpreter.Interpreter.RunPrint | golox/interpreter.go:32-35 | appends the expression's value to the output, or stops with its error |
| Interpreter.Interpreter.RunExpression | golox/interpreter.go:39-41 | evaluates the expression for its effect only |
| Interpreter.Interpreter.RunVarDecl | golox/interpreter.go:45-51 | defines the name in the innermost scope with the initializer's value, or `nil` without one |
| Interpreter.Interpreter.RunBlock | golox/interpreter.go:55-60 | runs the statements in a new scope whose parent is the current environment |
| Interpreter.Interpreter.RunIf | golox/interpreter.go:64-73 | runs the true branch for a truthy condition, otherwise the false branch if there is one |
| Interpreter.Interpreter.RunWhile | golox/interpreter.go:77-81 | the loop runs the body while the condition is truthy, in the same environment, stopping at a return or an error |
| Interpreter.Interpreter.RunFunction | golox/interpreter.go:85-88 | binds a new function value closing over the current environment under the declaration's name |
| Interpreter.Interpreter.RunReturn | golox/interpreter.go:92-98 | ends with `Returned` and the value, or `nil` without one |
| Interpreter.Interpreter.Eval | golox/interpreter.go:102-232 | dispatching an expression leaves the value and state the semantics gives |
| Interpreter.Interpreter.EvalUnary | golox/interpreter.go:116-127 | evaluates the operand, then applies the operator |
| Interpreter.Interpreter.EvalBinary | golox/interpreter.go:130-184 | evaluates left, then right, then applies the operator |
| Interpreter.Interpreter.EvalLogical | golox/interpreter.go:200-212 | evaluates the right operand only when the left value does not decide the result |
| Interpreter.Interpreter.EvalAssignment | golox/interpreter.go:102-106 | evaluates the value, overwrites the nearest binding with it and yields it, or fails for an unbound name |
| Interpreter.Interpreter.EvalCall | golox/interpreter.go:216-232 | the loop over the arguments appends each value in order and stops at the first error, then the call is checked and made |
| Interpreter.Interpreter.CallValue | golox/interpreter.go:222-231 | the loop defines each parameter in a new scope whose parent is the closure, then runs the body there and yields its returned value or `nil` |
| ClosureFinding.RunFunctionAsWritten | golox/interpreter.go:85-88 | as written: the node's closure field is overwritten with the current environment and the node itself is the bound value; no other node gains or changes a field |
| ClosureFinding.AsWrittenSecondRunMovesFirstClosure | golox/interpreter.go:85-88 | as written: a second run of the same declaration in another environment changes the closure of the value the first run bound |
| ExamplePrograms.ShadowingPrintsInnerThenOuter | golox/interpreter.go:45-60 | `var x = 1; { var x = 2; print x; } print x;` prints 2, then 1 |
| ExamplePrograms.VarLiteralStep | golox/interpreter.go:45-51 | `var name = v;` defines `v` in the innermost scope |
| ExamplePrograms.CopyStep | golox/interpreter.go:102-106 | `a = b;` with both names bound overwrites the nearest `a` with the value of `b` |
| ExamplePrograms.IncrementStep | golox/interpreter.go:102-106 | `i = i + 1;` with `i` bound to `n` overwrites the nearest `i` with `n + 1` |
| ExamplePrograms.IncCall | golox/interpreter.go:216-232 | a call of `inc` adds one to the `i` of the block's scope, which its closure shares, and returns the new value |
| ExamplePrograms.CounterBlock | golox/interpreter.go:55-88 | the counter block defines `i` and `inc` in its own scope and stores the function, closing over that scope, in the global `counter` |
| ExamplePrograms.PrintCounterCall | golox/interpreter.go:32-35 | `print counter();` prints one more than the current `i` and updates `i` |
| ExamplePrograms.CounterSharesItsEnvironment | golox/interpreter.go:85-88 | the counter program finishes normally and prints 1, then 2: the closure shares the block's scope after the block ends |
| ExamplePrograms.ArityMismatch | golox/interpreter.go:222-227 | calling, through the variable it is bound to, a two-parameter function with one argument fails with "expect 2 arguments but got 1" at the parenthesis |
| ExamplePrograms.AssignUndeclared | golox/interpreter.go:102-106 | assigning to an unbound `x` fails with "undefined variable 'x'" and leaves the state unchanged |

## Left out

- Output formatting: `print` appends the value to the output sequence; how
  `fmt.Println` renders it is not modelled.
- The message text of an error: an error is its token plus its message. The
  `line %d, %s` rendering is not modelled.
- Numbers are Dafny `real`, not IEEE float64. No claim is made about
  rounding, NaN, infinity or negative zero. In particular the negation
  halves of ComparisonsAgree (`a > b` is not `a <= b`) hold for reals and
  not for a NaN, which float64 overflow followed by `inf - inf` produces.
- Go's panic/recover mechanism itself is not modelled. Errors and `return`
  are explicit results instead.
- The message of a failed type assertion is not modelled. It is represented
  by a `Panic` with a fixed text.
- env.go (`NewEnv`, `Define`, `Get`, `Set`) is not part of this model. These
  are modelled from how interpreter.go uses them: an innermost-scope
  definition, and lookups and assignments that walk outward. The text of the
  undefined-variable error, "undefined variable '<name>'", does not appear in
  interpreter.go and is assumed.
- The Callable implementation (`Call`, `Arity`) is not part of this model. It
  is modelled as the simplest call contract:
  - the arity is the number of parameters;
  - a new scope whose parent is the closure holds the parameters;
  - the body runs there;
  - `return` gives the value and normal completion gives `nil`.
- The recover site of `FunctionReturn` is not part of this model.
  `Semantics.Invoke` consumes `Returned` at the call boundary.
- Fuel: every evaluation step uses one unit. A run that does not finish
  within its fuel ends with `OutOfFuel`. Nothing is claimed about Go's
  behaviour on a program that does not terminate, or on a stack overflow.
- Semantics.Exec (case `Function`) and Interpreter.Interpreter.RunFunction
  model the corrected behaviour of the Findings row: each execution of a
  declaration creates a new function value with its own closure. The code as
  written, which overwrites the one closure field of the declaration node, is
  modelled only in module ClosureFinding.
- Function values are compared by their creation id, declaration and
  closure, not by Go pointer identity.
- The unreachable panics for an unknown operator and for `toNumber` or
  `toString` on the wrong kind are not modelled. The closed operator types
  rule them out, and `ToNumber`/`ToString` require the right kind.
- Chains that refer to scopes not yet allocated are not modelled. Every
  operation starts from an environment whose innermost scope exists, and a
  reference to a missing scope binds nothing.
- The stmt.go `Stmt` interface, the parser, the scanner and the top-level
  driver are not part of this model. The class's constructor and
  `ExecuteStatements` in the global environment play the driver's role.
- Recursion is covered by `Properties.DeclarationSeesItself`: the function's
  own name resolves from inside its call. No concrete recursive program, such
  as factorial, is worked through.

## Findings

| source | as written | input that shows it | evidently intended | confidence | as-written member | corrected member |
|---|---|---|---|---|---|---|
| golox/interpreter.go:85-88 | running a function declaration stores the current environment in the declaration node's single `closure` field and binds the node itself, so every value from one declaration shares one closure, the one from its latest execution | `fun make() { var i = 0; fun inc() { i = i + 1; return i; } return inc; } var a = make(); var b = make(); print a(); print b();` prints 1 then 2, because `a` now closes over the second call's `i` | each execution creates its own function value closing over its own environment, so the program prints 1 then 1 | not executed; follows from the three lines of the declaration's Run method | ClosureFinding.AsWrittenSecondRunMovesFirstClosure | Properties.DeclarationsKeepTheirClosures |
