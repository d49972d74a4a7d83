/** The evaluator as functions: what running a statement or evaluating an
    expression does to the scope arena and the output, and what it yields.

    Go's panics become results: a RuntimeError (or a Go crash) is `Err`/`Abort`,
    and the FunctionReturn panic of `return` is the `Returned` outcome, which
    every statement that runs other statements passes on unchanged and which only
    a function call consumes. Since neither `while` nor recursion needs to
    terminate, each evaluation step consumes one unit of `fuel`; when it runs
    out the result is the `OutOfFuel` error. */
module Semantics {
  import opened Ast
  import opened Values
  import opened Environment

  /** Everything evaluation changes: the scope arena, the values printed so far,
      and the number of function values created so far. */
  datatype State = State(scopes: Scopes, out: seq<Val>, nextId: nat)

  datatype EvalResult = EvalResult(val: Result<Val>, st: State)

  /** How a statement finished: normally, by `return` with a value, or
      stopped by an error. */
  datatype Outcome = Normal | Returned(value: Val) | Abort(error: Error)

  datatype ExecResult = ExecResult(outcome: Outcome, st: State)

  datatype ArgsResult = ArgsResult(vals: Result<seq<Val>>, st: State)

  /** The state at program start: one empty global scope, nothing printed. */
  function Initial(): State {
    State([map[]], [], 0)
  }

  const Global: Env := [0]

  /** The innermost scope of `env` exists. */
  predicate Live(st: State, env: Env) {
    env[0] < |st.scopes|
  }

  /** `st2` is a possible later state of `st`: no scope disappears, output is
      only appended to, and function values are never reused. */
  predicate Extends(st: State, st2: State) {
    |st.scopes| <= |st2.scopes| && st.out <= st2.out && st.nextId <= st2.nextId
  }

  /** A logical operator whose left value already decides the result. */
  predicate ShortCircuits(op: LogicalOp, left: Val) {
    match op
    case Or => Truthy(left)
    case And => !Truthy(left)
  }

  function Eval(e: Expr, env: Env, st: State, fuel: nat): (r: EvalResult)
    requires Live(st, env)
    ensures Extends(st, r.st)
    decreases fuel, 0
  {
    if fuel == 0 then EvalResult(Err(OutOfFuel), st)
    else
      match e
      case Literal(v) => EvalResult(Ok(v), st)
      case Grouping(operand) => Eval(operand, env, st, fuel - 1)
      case Unary(op, operand) =>
        var a := Eval(operand, env, st, fuel - 1);
        if a.val.Err? then a
        else EvalResult(ApplyUnary(op, a.val.value), a.st)
      case Binary(op, operator, left, right) =>
        var l := Eval(left, env, st, fuel - 1);
        if l.val.Err? then l
        else
          var r := Eval(right, env, l.st, fuel - 1);
          if r.val.Err? then r
          else EvalResult(ApplyBinary(op, operator, l.val.value, r.val.value), r.st)
      case Logical(op, left, right) =>
        var l := Eval(left, env, st, fuel - 1);
        if l.val.Err? || ShortCircuits(op, l.val.value) then l
        else Eval(right, env, l.st, fuel - 1)
      case Variable(name) => EvalResult(Get(st.scopes, env, name), st)
      case Assignment(name, value) =>
        var a := Eval(value, env, st, fuel - 1);
        if a.val.Err? then a
        else
          var updated := Assign(a.st.scopes, env, name, a.val.value);
          if updated.Err? then EvalResult(Err(updated.error), a.st)
          else EvalResult(a.val, a.st.(scopes := updated.value))
      case Call(callee, paren, arguments) =>
        var c := Eval(callee, env, st, fuel - 1);
        if c.val.Err? then c
        else
          var args := EvalArgs(arguments, env, c.st, fuel - 1);
          if args.vals.Err? then EvalResult(Err(args.vals.error), args.st)
          else CallValue(c.val.value, paren, args.vals.value, args.st, fuel - 1)
  }

  /** The optional expression of a `var` or a `return`: its value, or `nil`
      when there is none. */
  function EvalOptional(value: Option<Expr>, env: Env, st: State, fuel: nat): (a: EvalResult)
    requires Live(st, env)
    ensures value.None? ==> a == EvalResult(Ok(Nil), st)
    ensures Extends(st, a.st)
    decreases fuel, 1
  {
    if value.Some? then Eval(value.value, env, st, fuel) else EvalResult(Ok(Nil), st)
  }

  /** The arguments of a call, evaluated left to right; the first error stops. */
  function EvalArgs(args: seq<Expr>, env: Env, st: State, fuel: nat): (r: ArgsResult)
    requires Live(st, env)
    ensures Extends(st, r.st)
    ensures r.vals.Ok? ==> |r.vals.value| == |args|
    decreases fuel, |args|
  {
    if |args| == 0 then ArgsResult(Ok([]), st)
    else
      var a := Eval(args[0], env, st, fuel);
      if a.val.Err? then ArgsResult(Err(a.val.error), a.st)
      else
        var rest := EvalArgs(args[1..], env, a.st, fuel);
        if rest.vals.Err? then rest
        else ArgsResult(Ok([a.val.value] + rest.vals.value), rest.st)
  }

  /** Applying an evaluated callee to evaluated arguments: only a function is
      callable, and only with as many arguments as it has parameters. */
  function CallValue(callee: Val, paren: Token, args: seq<Val>, st: State, fuel: nat): (r: EvalResult)
    ensures Extends(st, r.st)
    decreases fuel, if callee.Fn? then |callee.decl.body| + 2 else 0
  {
    if !callee.Fn? then EvalResult(Err(RuntimeError(paren, NotCallable)), st)
    else if |callee.decl.params| != |args| then
      EvalResult(Err(RuntimeError(paren, ArityMessage(|callee.decl.params|, |args|))), st)
    else Invoke(callee, args, st, fuel)
  }

  /** A call activation: a new scope whose parent is the function's closure,
      holding the parameters; the body's statements run there, and a `return`
      ends the call with its value, while normal completion yields `nil`. */
  function Invoke(f: Val, args: seq<Val>, st: State, fuel: nat): (r: EvalResult)
    requires f.Fn? && |args| == |f.decl.params|
    ensures Extends(st, r.st)
    decreases fuel, |f.decl.body| + 1
  {
    var callEnv: Env := [|st.scopes|] + f.closure;
    var scopes := BindParams(st.scopes + [map[]], callEnv, f.decl.params, args);
    var body := ExecSeq(f.decl.body, callEnv, st.(scopes := scopes), fuel);
    match body.outcome
    case Normal => EvalResult(Ok(Nil), body.st)
    case Returned(v) => EvalResult(Ok(v), body.st)
    case Abort(err) => EvalResult(Err(err), body.st)
  }

  /** Some parameter is called `x`. */
  predicate NamesParam(params: seq<Token>, x: string) {
    exists p :: p in params && p.lexeme == x
  }

  /** No parameter after the `i`-th has the same name. */
  predicate LastOfItsName(params: seq<Token>, i: nat)
    requires i < |params|
  {
    forall j :: i < j < |params| ==> params[j].lexeme != params[i].lexeme
  }

  /** Defines each parameter, in order, in the innermost scope of `env`. */
  function BindParams(scopes: Scopes, env: Env, params: seq<Token>, args: seq<Val>): (r: Scopes)
    requires |params| == |args| && env[0] < |scopes|
    ensures |r| == |scopes|
    ensures forall i :: 0 <= i < |scopes| && i != env[0] ==> r[i] == scopes[i]
    ensures r[env[0]].Keys == scopes[env[0]].Keys + set p | p in params :: p.lexeme
    decreases |params|
  {
    if |params| == 0 then scopes
    else BindParams(Define(scopes, env, params[0].lexeme, args[0]), env, params[1..], args[1..])
  }

  /** Binding the parameters leaves a name that is no parameter with the
      value it had. */
  lemma {:induction false} BindParamsKeepsOthers(scopes: Scopes, env: Env, params: seq<Token>, args: seq<Val>, x: string)
    requires |params| == |args| && env[0] < |scopes|
    requires x in scopes[env[0]] && !NamesParam(params, x)
    ensures BindParams(scopes, env, params, args)[env[0]][x] == scopes[env[0]][x]
    decreases |params|
  {
    if |params| > 0 {
      var s1 := Define(scopes, env, params[0].lexeme, args[0]);
      BindParamsKeepsOthers(s1, env, params[1..], args[1..], x);
    }
  }

  /** Binding the parameters gives the `i`-th its argument, unless a later
      parameter has the same name. */
  lemma {:induction false} BindParamsBindsArgument(scopes: Scopes, env: Env, params: seq<Token>, args: seq<Val>, i: nat)
    requires |params| == |args| && env[0] < |scopes|
    requires i < |params| && LastOfItsName(params, i)
    ensures BindParams(scopes, env, params, args)[env[0]][params[i].lexeme] == args[i]
    decreases |params|
  {
    var s1 := Define(scopes, env, params[0].lexeme, args[0]);
    if i == 0 {
      BindParamsKeepsOthers(s1, env, params[1..], args[1..], params[0].lexeme);
    } else {
      assert params[1..][i - 1] == params[i];
      assert LastOfItsName(params[1..], i - 1) by {
        forall j | i - 1 < j < |params[1..]|
          ensures params[1..][j].lexeme != params[1..][i - 1].lexeme
        {
          assert params[1..][j] == params[j + 1];
        }
      }
      BindParamsBindsArgument(s1, env, params[1..], args[1..], i - 1);
    }
  }

  function Exec(s: Stmt, env: Env, st: State, fuel: nat): (r: ExecResult)
    requires Live(st, env)
    ensures Extends(st, r.st)
    decreases fuel, 0
  {
    if fuel == 0 then ExecResult(Abort(OutOfFuel), st)
    else
      match s
      case Print(e) =>
        var a := Eval(e, env, st, fuel - 1);
        if a.val.Err? then ExecResult(Abort(a.val.error), a.st)
        else ExecResult(Normal, a.st.(out := a.st.out + [a.val.value]))
      case Expression(e) =>
        var a := Eval(e, env, st, fuel - 1);
        if a.val.Err? then ExecResult(Abort(a.val.error), a.st)
        else ExecResult(Normal, a.st)
      case VarDecl(name, value) =>
        var a := EvalOptional(value, env, st, fuel - 1);
        if a.val.Err? then ExecResult(Abort(a.val.error), a.st)
        else ExecResult(Normal, a.st.(scopes := Define(a.st.scopes, env, name.lexeme, a.val.value)))
      case Block(stmts) =>
        var blockEnv: Env := [|st.scopes|] + env;
        ExecSeq(stmts, blockEnv, st.(scopes := st.scopes + [map[]]), fuel - 1)
      case If(condition, trueBranch, falseBranch) =>
        var c := Eval(condition, env, st, fuel - 1);
        if c.val.Err? then ExecResult(Abort(c.val.error), c.st)
        else if Truthy(c.val.value) then Exec(trueBranch, env, c.st, fuel - 1)
        else if falseBranch.Some? then Exec(falseBranch.value, env, c.st, fuel - 1)
        else ExecResult(Normal, c.st)
      case While(condition, body) =>
        var c := Eval(condition, env, st, fuel - 1);
        if c.val.Err? then ExecResult(Abort(c.val.error), c.st)
        else if !Truthy(c.val.value) then ExecResult(Normal, c.st)
        else
          var b := Exec(body, env, c.st, fuel - 1);
          if !b.outcome.Normal? then b
          else Exec(s, env, b.st, fuel - 1)
      case Function(decl) =>
        var f := Fn(st.nextId, decl, env);
        ExecResult(Normal, State(Define(st.scopes, env, decl.name.lexeme, f), st.out, st.nextId + 1))
      case Return(value) =>
        var a := EvalOptional(value, env, st, fuel - 1);
        if a.val.Err? then ExecResult(Abort(a.val.error), a.st)
        else ExecResult(Returned(a.val.value), a.st)
  }

  /** Statements run in order until one does not finish normally. */
  function ExecSeq(ss: seq<Stmt>, env: Env, st: State, fuel: nat): (r: ExecResult)
    requires Live(st, env)
    ensures Extends(st, r.st)
    decreases fuel, |ss|
  {
    if |ss| == 0 then ExecResult(Normal, st)
    else
      var a := Exec(ss[0], env, st, fuel);
      if !a.outcome.Normal? then a
      else ExecSeq(ss[1..], env, a.st, fuel)
  }

  /** A whole program: its statements run in the global environment of a fresh
      state. */
  function RunProgram(program: seq<Stmt>, fuel: nat): ExecResult {
    ExecSeq(program, Global, Initial(), fuel)
  }
}
