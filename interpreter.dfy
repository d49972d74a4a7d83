/** The evaluator in the form it has in Go: one method per node kind, run for
    its effect on a mutable interpreter state (the scope arena and the output).
    Every method is proved to do exactly what the reference semantics in module
    Semantics says, from the state it starts in. */
module Interpreter {
  import opened Ast
  import opened Values
  import opened Environment
  import S = Semantics

  /** The arguments evaluated so far, in front of what evaluating the rest
      gives. */
  function Prepend(done: seq<Val>, rest: S.ArgsResult): S.ArgsResult {
    if rest.vals.Err? then rest else S.ArgsResult(Ok(done + rest.vals.value), rest.st)
  }

  lemma PrependNothing(r: S.ArgsResult)
    ensures Prepend([], r) == r
  {
    if r.vals.Ok? {
      assert [] + r.vals.value == r.vals.value;
    }
  }

  /** Evaluating the first argument moves its value from the rest to the
      arguments done. */
  lemma PrependStep(done: seq<Val>, arguments: seq<Expr>, env: Env, before: S.State, after: S.State, v: Val, fuel: nat)
    requires S.Live(before, env) && |arguments| > 0
    requires S.Eval(arguments[0], env, before, fuel) == S.EvalResult(Ok(v), after)
    ensures S.Live(after, env)
    ensures Prepend(done, S.EvalArgs(arguments, env, before, fuel)) ==
            Prepend(done + [v], S.EvalArgs(arguments[1..], env, after, fuel))
  {
    var rest := S.EvalArgs(arguments[1..], env, after, fuel);
    if rest.vals.Ok? {
      assert done + ([v] + rest.vals.value) == (done + [v]) + rest.vals.value;
    }
  }

  class Interpreter {
    var scopes: Scopes
    var out: seq<Val>
    var nextId: nat

    function State(): S.State
      reads this
    {
      S.State(scopes, out, nextId)
    }

    /** An interpreter with one empty global scope and no output. */
    constructor ()
      ensures State() == S.Initial()
    {
      scopes := [map[]];
      out := [];
      nextId := 0;
    }

    /*----------  Statements  ----------*/

    method Exec(s: Stmt, env: Env, fuel: nat) returns (o: S.Outcome)
      requires S.Live(State(), env)
      modifies this
      ensures S.ExecResult(o, State()) == S.Exec(s, env, old(State()), fuel)
      decreases fuel, 3
    {
      if fuel == 0 {
        return S.Abort(OutOfFuel);
      }
      match s
      case Print(e) => o := RunPrint(e, env, fuel);
      case Expression(e) => o := RunExpression(e, env, fuel);
      case VarDecl(name, value) => o := RunVarDecl(name, value, env, fuel);
      case Block(stmts) => o := RunBlock(stmts, env, fuel);
      case If(condition, trueBranch, falseBranch) => o := RunIf(condition, trueBranch, falseBranch, env, fuel);
      case While(condition, body) => o := RunWhile(condition, body, env, fuel);
      case Function(decl) => o := RunFunction(decl, env, fuel);
      case Return(value) => o := RunReturn(value, env, fuel);
    }

    /** Runs statements in order in one environment, stopping at the first one
        that does not finish normally. */
    method ExecuteStatements(ss: seq<Stmt>, env: Env, fuel: nat) returns (o: S.Outcome)
      requires S.Live(State(), env)
      modifies this
      ensures S.ExecResult(o, State()) == S.ExecSeq(ss, env, old(State()), fuel)
      decreases fuel, 4
    {
      var i := 0;
      while i < |ss|
        invariant 0 <= i <= |ss|
        invariant S.Live(State(), env)
        invariant S.ExecSeq(ss[i..], env, State(), fuel) == S.ExecSeq(ss, env, old(State()), fuel)
        decreases |ss| - i
      {
        assert ss[i..][1..] == ss[i + 1..];
        o := Exec(ss[i], env, fuel);
        if !o.Normal? {
          return;
        }
        i := i + 1;
      }
      o := S.Normal;
    }

    method RunPrint(e: Expr, env: Env, fuel: nat) returns (o: S.Outcome)
      requires S.Live(State(), env) && fuel > 0
      modifies this
      ensures S.ExecResult(o, State()) == S.Exec(Print(e), env, old(State()), fuel)
      decreases fuel, 2
    {
      var v := Eval(e, env, fuel - 1);
      if v.Err? {
        return S.Abort(v.error);
      }
      out := out + [v.value];
      o := S.Normal;
    }

    method RunExpression(e: Expr, env: Env, fuel: nat) returns (o: S.Outcome)
      requires S.Live(State(), env) && fuel > 0
      modifies this
      ensures S.ExecResult(o, State()) == S.Exec(Expression(e), env, old(State()), fuel)
      decreases fuel, 2
    {
      var v := Eval(e, env, fuel - 1);
      o := if v.Err? then S.Abort(v.error) else S.Normal;
    }

    method RunVarDecl(name: Token, value: Option<Expr>, env: Env, fuel: nat) returns (o: S.Outcome)
      requires S.Live(State(), env) && fuel > 0
      modifies this
      ensures S.ExecResult(o, State()) == S.Exec(VarDecl(name, value), env, old(State()), fuel)
      decreases fuel, 2
    {
      var v: Result<Val> := Ok(Nil);
      if value.Some? {
        v := Eval(value.value, env, fuel - 1);
      }
      if v.Err? {
        return S.Abort(v.error);
      }
      scopes := Define(scopes, env, name.lexeme, v.value);
      o := S.Normal;
    }

    /** A block runs in a new environment whose parent is the current one. */
    method RunBlock(stmts: seq<Stmt>, env: Env, fuel: nat) returns (o: S.Outcome)
      requires S.Live(State(), env) && fuel > 0
      modifies this
      ensures S.ExecResult(o, State()) == S.Exec(Block(stmts), env, old(State()), fuel)
      decreases fuel, 2
    {
      var blockEnv: Env := [|scopes|] + env;
      scopes := scopes + [map[]];
      o := ExecuteStatements(stmts, blockEnv, fuel - 1);
    }

    method RunIf(condition: Expr, trueBranch: Stmt, falseBranch: Option<Stmt>, env: Env, fuel: nat) returns (o: S.Outcome)
      requires S.Live(State(), env) && fuel > 0
      modifies this
      ensures S.ExecResult(o, State()) == S.Exec(If(condition, trueBranch, falseBranch), env, old(State()), fuel)
      decreases fuel, 2
    {
      var c := Eval(condition, env, fuel - 1);
      if c.Err? {
        return S.Abort(c.error);
      }
      if Truthy(c.value) {
        o := Exec(trueBranch, env, fuel - 1);
      } else if falseBranch.Some? {
        o := Exec(falseBranch.value, env, fuel - 1);
      } else {
        o := S.Normal;
      }
    }

    /** Runs the body while the condition is truthy; each round uses one unit
        of fuel, as the reference semantics' re-entry of the loop does. */
    method RunWhile(condition: Expr, body: Stmt, env: Env, fuel: nat) returns (o: S.Outcome)
      requires S.Live(State(), env) && fuel > 0
      modifies this
      ensures S.ExecResult(o, State()) == S.Exec(While(condition, body), env, old(State()), fuel)
      decreases fuel, 2
    {
      var k := fuel;
      while k > 0
        invariant k <= fuel
        invariant S.Live(State(), env)
        invariant S.Exec(While(condition, body), env, State(), k) == S.Exec(While(condition, body), env, old(State()), fuel)
        decreases k
      {
        var c := Eval(condition, env, k - 1);
        if c.Err? {
          return S.Abort(c.error);
        }
        if !Truthy(c.value) {
          return S.Normal;
        }
        o := Exec(body, env, k - 1);
        if !o.Normal? {
          return;
        }
        k := k - 1;
      }
      o := S.Abort(OutOfFuel);
    }

    /** A declaration creates a function value closing over the current
        environment and defines its name there. */
    method RunFunction(decl: FunDecl, env: Env, fuel: nat) returns (o: S.Outcome)
      requires S.Live(State(), env) && fuel > 0
      modifies this
      ensures S.ExecResult(o, State()) == S.Exec(Function(decl), env, old(State()), fuel)
      decreases fuel, 2
    {
      var f := Fn(nextId, decl, env);
      scopes := Define(scopes, env, decl.name.lexeme, f);
      nextId := nextId + 1;
      o := S.Normal;
    }

    method RunReturn(value: Option<Expr>, env: Env, fuel: nat) returns (o: S.Outcome)
      requires S.Live(State(), env) && fuel > 0
      modifies this
      ensures S.ExecResult(o, State()) == S.Exec(Return(value), env, old(State()), fuel)
      decreases fuel, 2
    {
      var v: Result<Val> := Ok(Nil);
      if value.Some? {
        v := Eval(value.value, env, fuel - 1);
      }
      o := if v.Err? then S.Abort(v.error) else S.Returned(v.value);
    }

    /*----------  Expressions  ----------*/

    method Eval(e: Expr, env: Env, fuel: nat) returns (r: Result<Val>)
      requires S.Live(State(), env)
      modifies this
      ensures S.EvalResult(r, State()) == S.Eval(e, env, old(State()), fuel)
      decreases fuel, 3
    {
      if fuel == 0 {
        return Err(OutOfFuel);
      }
      match e
      case Literal(v) => r := Ok(v);
      case Grouping(operand) => r := Eval(operand, env, fuel - 1);
      case Unary(op, operand) => r := EvalUnary(op, operand, env, fuel);
      case Binary(op, operator, left, right) => r := EvalBinary(op, operator, left, right, env, fuel);
      case Logical(op, left, right) => r := EvalLogical(op, left, right, env, fuel);
      case Variable(name) => r := Get(scopes, env, name);
      case Assignment(name, value) => r := EvalAssignment(name, value, env, fuel);
      case Call(callee, paren, arguments) => r := EvalCall(callee, paren, arguments, env, fuel);
    }

    method EvalUnary(op: UnaryOp, operand: Expr, env: Env, fuel: nat) returns (r: Result<Val>)
      requires S.Live(State(), env) && fuel > 0
      modifies this
      ensures S.EvalResult(r, State()) == S.Eval(Unary(op, operand), env, old(State()), fuel)
      decreases fuel, 2
    {
      var v := Eval(operand, env, fuel - 1);
      if v.Err? {
        return v;
      }
      r := ApplyUnary(op, v.value);
    }

    method EvalBinary(op: BinaryOp, operator: Token, left: Expr, right: Expr, env: Env, fuel: nat) returns (r: Result<Val>)
      requires S.Live(State(), env) && fuel > 0
      modifies this
      ensures S.EvalResult(r, State()) == S.Eval(Binary(op, operator, left, right), env, old(State()), fuel)
      decreases fuel, 2
    {
      ghost var st0 := State();
      var l := Eval(left, env, fuel - 1);
      if l.Err? {
        return l;
      }
      ghost var st1 := State();
      var rt := Eval(right, env, fuel - 1);
      if rt.Err? {
        return rt;
      }
      r := ApplyBinary(op, operator, l.value, rt.value);
      assert S.Eval(Binary(op, operator, left, right), env, st0, fuel) ==
               S.EvalResult(ApplyBinary(op, operator, S.Eval(left, env, st0, fuel - 1).val.value,
                                        S.Eval(right, env, st1, fuel - 1).val.value), State());
    }

    method EvalLogical(op: LogicalOp, left: Expr, right: Expr, env: Env, fuel: nat) returns (r: Result<Val>)
      requires S.Live(State(), env) && fuel > 0
      modifies this
      ensures S.EvalResult(r, State()) == S.Eval(Logical(op, left, right), env, old(State()), fuel)
      decreases fuel, 2
    {
      r := Eval(left, env, fuel - 1);
      if r.Err? {
        return;
      }
      if op == Or {
        if Truthy(r.value) {
          return;
        }
      } else {
        if !Truthy(r.value) {
          return;
        }
      }
      r := Eval(right, env, fuel - 1);
    }

    method EvalAssignment(name: Token, value: Expr, env: Env, fuel: nat) returns (r: Result<Val>)
      requires S.Live(State(), env) && fuel > 0
      modifies this
      ensures S.EvalResult(r, State()) == S.Eval(Assignment(name, value), env, old(State()), fuel)
      decreases fuel, 2
    {
      r := Eval(value, env, fuel - 1);
      if r.Err? {
        return;
      }
      var updated := Assign(scopes, env, name, r.value);
      if updated.Err? {
        return Err(updated.error);
      }
      scopes := updated.value;
    }

    /** The callee, then the arguments left to right, then the call. */
    method EvalCall(callee: Expr, paren: Token, arguments: seq<Expr>, env: Env, fuel: nat) returns (r: Result<Val>)
      requires S.Live(State(), env) && fuel > 0
      modifies this
      ensures S.EvalResult(r, State()) == S.Eval(Call(callee, paren, arguments), env, old(State()), fuel)
      decreases fuel, 2
    {
      var c := Eval(callee, env, fuel - 1);
      if c.Err? {
        return c;
      }
      ghost var afterCallee := State();
      var args: seq<Val> := [];
      var i := 0;
      assert arguments[0..] == arguments;
      PrependNothing(S.EvalArgs(arguments, env, afterCallee, fuel - 1));
      while i < |arguments|
        invariant 0 <= i <= |arguments|
        invariant S.Live(State(), env)
        invariant S.EvalArgs(arguments, env, afterCallee, fuel - 1) ==
                  Prepend(args, S.EvalArgs(arguments[i..], env, State(), fuel - 1))
        decreases |arguments| - i
      {
        assert arguments[i..][1..] == arguments[i + 1..];
        ghost var before := State();
        var v := Eval(arguments[i], env, fuel - 1);
        if v.Err? {
          return Err(v.error);
        }
        PrependStep(args, arguments[i..], env, before, State(), v.value, fuel - 1);
        args := args + [v.value];
        i := i + 1;
      }
      assert args + [] == args;
      r := CallValue(c.value, paren, args, fuel - 1);
    }

    /** Checks that the callee is a function of the right arity and invokes it:
        a new scope whose parent is the closure receives the parameters, the
        body runs there, and a `return` gives the call's value (`nil` without
        one). */
    method CallValue(callee: Val, paren: Token, args: seq<Val>, fuel: nat) returns (r: Result<Val>)
      modifies this
      ensures S.EvalResult(r, State()) == S.CallValue(callee, paren, args, old(State()), fuel)
      decreases fuel, 5
    {
      if !callee.Fn? {
        return Err(RuntimeError(paren, NotCallable));
      }
      var params := callee.decl.params;
      if |params| != |args| {
        return Err(RuntimeError(paren, ArityMessage(|params|, |args|)));
      }
      var callEnv: Env := [|scopes|] + callee.closure;
      scopes := scopes + [map[]];
      ghost var withScope := scopes;
      var i := 0;
      while i < |params|
        invariant 0 <= i <= |params|
        invariant |scopes| == |withScope| && nextId == old(nextId) && out == old(out)
        invariant S.BindParams(scopes, callEnv, params[i..], args[i..]) == S.BindParams(withScope, callEnv, params, args)
        decreases |params| - i
      {
        assert params[i..][1..] == params[i + 1..] && args[i..][1..] == args[i + 1..];
        scopes := Define(scopes, callEnv, params[i].lexeme, args[i]);
        i := i + 1;
      }
      var o := ExecuteStatements(callee.decl.body, callEnv, fuel);
      match o
      case Normal => r := Ok(Nil);
      case Returned(v) => r := Ok(v);
      case Abort(err) => r := Err(err);
    }
  }
}
