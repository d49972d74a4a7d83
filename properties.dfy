/** Properties of the evaluator, stated over the reference semantics. */
module Properties {
  import opened Ast
  import opened Values
  import opened Environment
  import opened Semantics

  /** `!!e` evaluates `e` once and yields its truthiness as a boolean. */
  lemma EvalDoubleBang(e: Expr, env: Env, st: State, fuel: nat)
    requires Live(st, env) && fuel >= 2
    ensures var a := Eval(e, env, st, fuel - 2);
            Eval(Unary(Bang, Unary(Bang, e)), env, st, fuel) ==
              if a.val.Err? then a else EvalResult(Ok(Bool(Truthy(a.val.value))), a.st)
  {
    var a := Eval(e, env, st, fuel - 2);
    if a.val.Ok? {
      DoubleBang(a.val.value);
    }
  }

  /** A binary expression evaluates its left operand, then its right one, and
      only then applies the operator; an error in an operand is passed on.
      This restates one case of the definition as a promise; it holds by
      unfolding that definition once. */
  lemma BinaryOperandOrder(op: BinaryOp, operator: Token, left: Expr, right: Expr, env: Env, st: State, fuel: nat)
    requires Live(st, env) && fuel >= 1
    ensures var l := Eval(left, env, st, fuel - 1);
            var r := Eval(Binary(op, operator, left, right), env, st, fuel);
            (l.val.Err? ==> r == l) &&
            (l.val.Ok? ==>
               var rt := Eval(right, env, l.st, fuel - 1);
               (rt.val.Err? ==> r == rt) &&
               (rt.val.Ok? ==> r == EvalResult(ApplyBinary(op, operator, l.val.value, rt.val.value), rt.st)))
  {
  }

  /** `or` with a truthy left value and `and` with a falsey one yield that value
      and leave the state as the left operand left it: the right operand is not
      evaluated. Otherwise the result is the right operand's.
      This restates one case of the definition as a promise; it holds by
      unfolding that definition once. */
  lemma ShortCircuit(op: LogicalOp, left: Expr, right: Expr, env: Env, st: State, fuel: nat)
    requires Live(st, env) && fuel >= 1
    ensures var l := Eval(left, env, st, fuel - 1);
            var r := Eval(Logical(op, left, right), env, st, fuel);
            (l.val.Ok? && op == Or && Truthy(l.val.value) ==> r == l) &&
            (l.val.Ok? && op == And && !Truthy(l.val.value) ==> r == l) &&
            (l.val.Ok? && !ShortCircuits(op, l.val.value) ==> r == Eval(right, env, l.st, fuel - 1)) &&
            (l.val.Err? ==> r == l)
  {
  }

  /** `var x;` binds `nil` in the innermost scope and prints nothing. */
  lemma VarWithoutInitializer(name: Token, env: Env, st: State, fuel: nat)
    requires Live(st, env) && fuel >= 1
    ensures var r := Exec(VarDecl(name, None), env, st, fuel);
            r.outcome == Normal && r.st.out == st.out &&
            Lookup(r.st.scopes, env, name.lexeme) == Some(Nil)
  {
    GetAfterDefine(st.scopes, env, name.lexeme, Nil);
  }

  /** A `var`, wherever it stands, binds in the innermost scope of its
      environment only: seen from any chain that does not refer to that scope,
      every name reads as after evaluating the initializer; from the
      environment itself, the name reads as the initializer's value. */
  lemma VarDeclIsLocal(name: Token, value: Option<Expr>, env: Env, outer: seq<nat>, st: State, fuel: nat, other: string)
    requires Live(st, env) && fuel >= 1
    requires forall i :: 0 <= i < |outer| ==> outer[i] != env[0]
    ensures var a := EvalOptional(value, env, st, fuel - 1);
            var r := Exec(VarDecl(name, value), env, st, fuel);
            Lookup(r.st.scopes, outer, other) == Lookup(a.st.scopes, outer, other) &&
            (a.val.Ok? ==> r.outcome == Normal && Lookup(r.st.scopes, env, name.lexeme) == Some(a.val.value))
  {
    var a := EvalOptional(value, env, st, fuel - 1);
    if a.val.Ok? {
      DefineOffChain(a.st.scopes, env, outer, name.lexeme, a.val.value, other);
      GetAfterDefine(a.st.scopes, env, name.lexeme, a.val.value);
    }
  }

  /** Shadowing: a `var` in a block binds in the block's own new scope, so
      nothing visible from the enclosing environment changes beyond what the
      initializer did, and inside the block the name has the initializer's
      value. */
  lemma BlockDeclarationIsLocal(name: Token, value: Option<Expr>, env: Env, st: State, fuel: nat, other: string)
    requires Allocated(st.scopes, env) && fuel >= 2
    ensures var blockEnv: Env := [|st.scopes|] + env;
            var a := EvalOptional(value, blockEnv, st.(scopes := st.scopes + [map[]]), fuel - 2);
            var r := Exec(Block([VarDecl(name, value)]), env, st, fuel);
            r.outcome == (if a.val.Ok? then Normal else Abort(a.val.error)) &&
            Lookup(r.st.scopes, env, other) == Lookup(a.st.scopes, env, other) &&
            (a.val.Ok? ==> Lookup(r.st.scopes, blockEnv, name.lexeme) == Some(a.val.value))
  {
    var blockEnv: Env := [|st.scopes|] + env;
    var st1 := st.(scopes := st.scopes + [map[]]);
    var body := [VarDecl(name, value)];
    var r1 := Exec(body[0], blockEnv, st1, fuel - 1);
    assert Exec(Block(body), env, st, fuel) == r1 by {
      assert body[1..] == [];
      assert ExecSeq(body, blockEnv, st1, fuel - 1) == r1;
    }
    var a := EvalOptional(value, blockEnv, st1, fuel - 2);
    assert r1.outcome == (if a.val.Ok? then Normal else Abort(a.val.error));
    assert forall i :: 0 <= i < |env| ==> env[i] != blockEnv[0];
    VarDeclIsLocal(name, value, blockEnv, env, st1, fuel - 1, other);
  }

  /** Evaluating the arguments `args + [last]` evaluates `args` left to right
      and then `last`, in the state the others left behind, whose value comes
      last; the first error stops the evaluation. */
  lemma {:induction false} EvalArgsSnoc(args: seq<Expr>, last: Expr, env: Env, st: State, fuel: nat)
    requires Live(st, env)
    ensures var p := EvalArgs(args, env, st, fuel);
            var q := EvalArgs(args + [last], env, st, fuel);
            (p.vals.Err? ==> q == p) &&
            (p.vals.Ok? ==>
               var x := Eval(last, env, p.st, fuel);
               (x.val.Err? ==> q == ArgsResult(Err(x.val.error), x.st)) &&
               (x.val.Ok? ==> q == ArgsResult(Ok(p.vals.value + [x.val.value]), x.st)))
    decreases |args|
  {
    if |args| == 0 {
      assert args + [last] == [last];
      assert [last][1..] == [];
      var x := Eval(last, env, st, fuel);
      if x.val.Ok? {
        assert [x.val.value] + [] == [] + [x.val.value];
      }
    } else {
      assert (args + [last])[0] == args[0];
      assert (args + [last])[1..] == args[1..] + [last];
      var a := Eval(args[0], env, st, fuel);
      if a.val.Ok? {
        EvalArgsSnoc(args[1..], last, env, a.st, fuel);
        var rest := EvalArgs(args[1..], env, a.st, fuel);
        if rest.vals.Ok? {
          var x := Eval(last, env, rest.st, fuel);
          if x.val.Ok? {
            assert [a.val.value] + (rest.vals.value + [x.val.value]) == ([a.val.value] + rest.vals.value) + [x.val.value];
          }
        }
      }
    }
  }

  /** Inside a call, each parameter reads as its argument, unless a later
      parameter has the same name. */
  lemma ParameterReadsAsArgument(f: Val, args: seq<Val>, st: State, i: nat)
    requires f.Fn? && |args| == |f.decl.params| && i < |args|
    requires LastOfItsName(f.decl.params, i)
    ensures var callEnv: Env := [|st.scopes|] + f.closure;
            Lookup(BindParams(st.scopes + [map[]], callEnv, f.decl.params, args), callEnv, f.decl.params[i].lexeme) == Some(args[i])
  {
    var callEnv: Env := [|st.scopes|] + f.closure;
    BindParamsBindsArgument(st.scopes + [map[]], callEnv, f.decl.params, args, i);
  }

  /** Running `ss + rest` runs `ss` and then, only if `ss` finished normally,
      `rest`: after a `return` or an error no later statement runs. */
  lemma {:induction false} ExecSeqAppend(ss: seq<Stmt>, rest: seq<Stmt>, env: Env, st: State, fuel: nat)
    requires Live(st, env)
    ensures var a := ExecSeq(ss, env, st, fuel);
            ExecSeq(ss + rest, env, st, fuel) ==
              if a.outcome.Normal? then ExecSeq(rest, env, a.st, fuel) else a
    decreases |ss|
  {
    if |ss| > 0 {
      assert (ss + rest)[0] == ss[0];
      assert (ss + rest)[1..] == ss[1..] + rest;
      var a := Exec(ss[0], env, st, fuel);
      if a.outcome.Normal? {
        ExecSeqAppend(ss[1..], rest, env, a.st, fuel);
      }
    } else {
      assert ss + rest == rest;
    }
  }

  /** `return` finishes with the value of its expression, or with `nil`.
      This restates one case of the definition as a promise; it holds by
      unfolding that definition once. */
  lemma ReturnCarriesValue(value: Option<Expr>, env: Env, st: State, fuel: nat)
    requires Live(st, env) && fuel >= 1
    ensures value.None? ==> Exec(Return(value), env, st, fuel) == ExecResult(Returned(Nil), st)
    ensures value.Some? ==>
              var a := Eval(value.value, env, st, fuel - 1);
              Exec(Return(value), env, st, fuel) ==
                if a.val.Ok? then ExecResult(Returned(a.val.value), a.st) else ExecResult(Abort(a.val.error), a.st)
  {
  }

  /** A `return` inside a block ends the block with the returned value, and
      the statements after it in the block do not run. */
  lemma ReturnEndsBlock(before: seq<Stmt>, value: Option<Expr>, after: seq<Stmt>, env: Env, st: State, fuel: nat)
    requires Live(st, env) && fuel >= 1
    ensures var blockEnv: Env := [|st.scopes|] + env;
            var st1 := st.(scopes := st.scopes + [map[]]);
            var a := ExecSeq(before + [Return(value)], blockEnv, st1, fuel - 1);
            Exec(Block(before + [Return(value)] + after), env, st, fuel) == a
  {
    var blockEnv: Env := [|st.scopes|] + env;
    var st1 := st.(scopes := st.scopes + [map[]]);
    ExecSeqAppend(before, [Return(value)], blockEnv, st1, fuel - 1);
    ExecSeqAppend(before + [Return(value)], after, blockEnv, st1, fuel - 1);
    var b := ExecSeq(before, blockEnv, st1, fuel - 1);
    if b.outcome.Normal? {
      assert ExecSeq([Return(value)], blockEnv, b.st, fuel - 1).outcome != Normal;
    }
  }

  /** `if` and `while` pass a `return` (or an error) of their branch or body on
      unchanged; a `while` whose body returns does not test its condition
      again. A falsey condition runs the false branch, if any, and its result
      is passed on in the same way. */
  lemma ReturnPassesThroughIfAndWhile(condition: Expr, branch: Stmt, other: Option<Stmt>, env: Env, st: State, fuel: nat)
    requires Live(st, env) && fuel >= 1
    ensures var c := Eval(condition, env, st, fuel - 1);
            c.val.Ok? && Truthy(c.val.value) ==>
              var b := Exec(branch, env, c.st, fuel - 1);
              Exec(If(condition, branch, other), env, st, fuel) == b &&
              (!b.outcome.Normal? ==> Exec(While(condition, branch), env, st, fuel) == b)
    ensures var c := Eval(condition, env, st, fuel - 1);
            c.val.Ok? && !Truthy(c.val.value) ==>
              (other.Some? ==> Exec(If(condition, branch, other), env, st, fuel) == Exec(other.value, env, c.st, fuel - 1)) &&
              (other.None? ==> Exec(If(condition, branch, other), env, st, fuel) == ExecResult(Normal, c.st)) &&
              Exec(While(condition, branch), env, st, fuel) == ExecResult(Normal, c.st)
  {
  }

  /** The order and the checks of a call: the callee first (an error there
      skips the arguments), then the arguments; a value that is not a function
      cannot be called, and a function called with the wrong number of
      arguments is not invoked.
      This restates one case of the definition as a promise; it holds by
      unfolding that definition once. */
  lemma CallChecks(callee: Expr, paren: Token, arguments: seq<Expr>, env: Env, st: State, fuel: nat)
    requires Live(st, env) && fuel >= 1
    ensures var c := Eval(callee, env, st, fuel - 1);
            var r := Eval(Call(callee, paren, arguments), env, st, fuel);
            (c.val.Err? ==> r == c) &&
            (c.val.Ok? ==>
               var args := EvalArgs(arguments, env, c.st, fuel - 1);
               (args.vals.Err? ==> r == EvalResult(Err(args.vals.error), args.st)) &&
               (args.vals.Ok? && !c.val.value.Fn? ==>
                  r == EvalResult(Err(RuntimeError(paren, NotCallable)), args.st)) &&
               (args.vals.Ok? && c.val.value.Fn? && |c.val.value.decl.params| != |arguments| ==>
                  r == EvalResult(Err(RuntimeError(paren, ArityMessage(|c.val.value.decl.params|, |arguments|))), args.st)))
  {
  }

  /** A call activation's value is what its body returned, `nil` when the body
      finished without `return`, and an error is never taken for a value.
      This restates one case of the definition as a promise; it holds by
      unfolding that definition once. */
  lemma CallBoundary(f: Val, args: seq<Val>, st: State, fuel: nat)
    requires f.Fn? && |args| == |f.decl.params|
    ensures var callEnv: Env := [|st.scopes|] + f.closure;
            var body := ExecSeq(f.decl.body, callEnv,
                                st.(scopes := BindParams(st.scopes + [map[]], callEnv, f.decl.params, args)), fuel);
            var r := Invoke(f, args, st, fuel);
            r.st == body.st &&
            (body.outcome.Returned? ==> r.val == Ok(body.outcome.value)) &&
            (body.outcome.Normal? ==> r.val == Ok(Nil)) &&
            (body.outcome.Abort? ==> r.val == Err(body.outcome.error))
  {
  }

  /** A function declaration closes over the environment it runs in and binds
      its own name there; a call of that value, which runs in a new scope whose
      parent is the closure, finds the function under its name unless a
      parameter shadows it. */
  lemma DeclarationSeesItself(decl: FunDecl, env: Env, st: State, fuel: nat, args: seq<Val>)
    requires Live(st, env) && fuel >= 1
    requires |args| == |decl.params|
    requires forall p :: p in decl.params ==> p.lexeme != decl.name.lexeme
    ensures var r := Exec(Function(decl), env, st, fuel);
            var f := Fn(st.nextId, decl, env);
            var callEnv: Env := [|r.st.scopes|] + env;
            r.outcome == Normal &&
            Lookup(r.st.scopes, env, decl.name.lexeme) == Some(f) &&
            Lookup(BindParams(r.st.scopes + [map[]], callEnv, decl.params, args), callEnv, decl.name.lexeme) == Some(f)
  {
    var r := Exec(Function(decl), env, st, fuel);
    var f := Fn(st.nextId, decl, env);
    var name := decl.name.lexeme;
    GetAfterDefine(st.scopes, env, name, f);
    var callEnv: Env := [|r.st.scopes|] + env;
    var s := BindParams(r.st.scopes + [map[]], callEnv, decl.params, args);
    assert !Binds(s, callEnv[0], name);
    assert s[env[0]] == r.st.scopes[env[0]];
    assert Binds(s, callEnv[1], name);
    assert Nearest(s, callEnv, name) == 1;
  }

  /** Two executions of one declaration create two distinct function values,
      each closing over the environment its own execution ran in. */
  lemma DeclarationsKeepTheirClosures(decl: FunDecl, env1: Env, st: State, fuel1: nat, env2: Env, later: State, fuel2: nat)
    requires Live(st, env1) && fuel1 >= 1
    requires Extends(Exec(Function(decl), env1, st, fuel1).st, later) && Live(later, env2) && fuel2 >= 1
    ensures var r1 := Exec(Function(decl), env1, st, fuel1);
            var r2 := Exec(Function(decl), env2, later, fuel2);
            var v1 := r1.st.scopes[env1[0]][decl.name.lexeme];
            var v2 := r2.st.scopes[env2[0]][decl.name.lexeme];
            v1.Fn? && v2.Fn? && v1.closure == env1 && v2.closure == env2 && v1 != v2
  {
  }

  /** The arithmetic examples: `2 + 3 * 4` (parsed with `*` binding tighter) is
      14, `1 / 0` fails with "divide by zero", and `"a" + 1` fails because the
      operands are neither two numbers nor two strings. */
  lemma ArithmeticExamples(t: Token, env: Env, st: State)
    requires Live(st, env)
    ensures Eval(Binary(Plus, t, Literal(Num(2.0)), Binary(Star, t, Literal(Num(3.0)), Literal(Num(4.0)))), env, st, 3)
            == EvalResult(Ok(Num(14.0)), st)
    ensures Eval(Binary(Slash, t, Literal(Num(1.0)), Literal(Num(0.0))), env, st, 2)
            == EvalResult(Err(RuntimeError(t, DivideByZero)), st)
    ensures Eval(Binary(Plus, t, Literal(Str("a")), Literal(Num(1.0))), env, st, 2)
            == EvalResult(Err(RuntimeError(t, MustBeNumbersOrStrings)), st)
  {
    assert Eval(Binary(Star, t, Literal(Num(3.0)), Literal(Num(4.0))), env, st, 2) == EvalResult(Ok(Num(12.0)), st);
  }
}
