/** Small programs run through the reference semantics. */
module ExamplePrograms {
  import opened Ast
  import opened Values
  import opened Environment
  import opened Semantics
  import Properties

  const X := Token("x", 1)

  /** var x = 1; { var x = 2; print x; } print x; */
  function ShadowingProgram(): seq<Stmt> {
    [ VarDecl(X, Some(Literal(Num(1.0)))),
      Block([VarDecl(X, Some(Literal(Num(2.0)))), Print(Variable(X))]),
      Print(Variable(X)) ]
  }

  /** The inner `x` shadows the outer one inside the block only: the program
      prints 2, then 1. */
  lemma ShadowingPrintsInnerThenOuter()
    ensures RunProgram(ShadowingProgram(), 3) == ExecResult(Normal, State([map["x" := Num(1.0)], map["x" := Num(2.0)]], [Num(2.0), Num(1.0)], 0))
  {
    var p := ShadowingProgram();
    var st1 := State([map["x" := Num(1.0)]], [], 0);
    assert Exec(p[0], Global, Initial(), 3) == ExecResult(Normal, st1);
    var inner := [VarDecl(X, Some(Literal(Num(2.0)))), Print(Variable(X))];
    var blockEnv: Env := [1, 0];
    var st2 := State([map["x" := Num(1.0)], map["x" := Num(2.0)]], [], 0);
    assert Exec(inner[0], blockEnv, st1.(scopes := st1.scopes + [map[]]), 2) == ExecResult(Normal, st2);
    assert Lookup(st2.scopes, blockEnv, "x") == Some(Num(2.0));
    var st3 := st2.(out := [Num(2.0)]);
    assert Exec(inner[1], blockEnv, st2, 2) == ExecResult(Normal, st3);
    assert inner[1..][1..] == [];
    assert ExecSeq(inner[1..], blockEnv, st2, 2) == ExecResult(Normal, st3);
    assert ExecSeq(inner, blockEnv, st1.(scopes := st1.scopes + [map[]]), 2) == ExecResult(Normal, st3);
    assert p[1] == Block(inner);
    assert [|st1.scopes|] + Global == blockEnv;
    assert Exec(p[1], Global, st1, 3) == ExecResult(Normal, st3);
    assert Lookup(st3.scopes, Global, "x") == Some(Num(1.0));
    assert Exec(p[2], Global, st3, 3) == ExecResult(Normal, st3.(out := [Num(2.0), Num(1.0)]));
    assert p[1..][1..][1..] == [];
    assert ExecSeq(p[1..][1..], Global, st3, 3) == ExecResult(Normal, st3.(out := [Num(2.0), Num(1.0)]));
    assert ExecSeq(p[1..], Global, st1, 3) == ExecResult(Normal, st3.(out := [Num(2.0), Num(1.0)]));
  }

  const I := Token("i", 2)
  const Counter := Token("counter", 1)
  const IncName := Token("inc", 2)
  const PlusTok := Token("+", 2)
  const Paren := Token(")", 3)

  /** fun inc() { i = i + 1; return i; } */
  function IncDecl(): FunDecl {
    FunDecl(IncName, [], [
      Expression(Assignment(I, Binary(Plus, PlusTok, Variable(I), Literal(Num(1.0))))),
      Return(Some(Variable(I)))])
  }

  /** `i = i + 1;` where `i` is bound to a number `n`: the nearest `i`
      becomes `n + 1`. */
  lemma IncrementStep(env: Env, st: State, n: real, fuel: nat)
    requires Live(st, env) && fuel >= 4
    requires Lookup(st.scopes, env, "i") == Some(Num(n))
    ensures Exec(IncDecl().body[0], env, st, fuel) ==
              ExecResult(Normal, st.(scopes := Assign(st.scopes, env, I, Num(n + 1.0)).value))
  {
    assert Eval(Variable(I), env, st, fuel - 3) == EvalResult(Ok(Num(n)), st);
    assert Eval(Literal(Num(1.0)), env, st, fuel - 3) == EvalResult(Ok(Num(1.0)), st);
    assert Eval(Binary(Plus, PlusTok, Variable(I), Literal(Num(1.0))), env, st, fuel - 2) == EvalResult(Ok(Num(n + 1.0)), st);
  }

  /** One call of `inc`, whose closure is the block's environment [1, 0]: it
      adds one to the `i` of scope 1 (shared, not copied) and returns it. */
  lemma {:induction false} IncCall(st: State, n: real, fuel: nat)
    requires |st.scopes| >= 2 && st.scopes[1].Keys == {"i", "inc"} && st.scopes[1]["i"] == Num(n)
    requires fuel >= 4
    ensures var f := Fn(0, IncDecl(), [1, 0]);
            var scopes := st.scopes[1 := st.scopes[1]["i" := Num(n + 1.0)]] + [map[]];
            Invoke(f, [], st, fuel) == EvalResult(Ok(Num(n + 1.0)), st.(scopes := scopes))
  {
    var f := Fn(0, IncDecl(), [1, 0]);
    var body := IncDecl().body;
    var callEnv: Env := [|st.scopes|, 1, 0];
    assert [|st.scopes|] + f.closure == callEnv;
    var s1 := st.(scopes := st.scopes + [map[]]);
    assert BindParams(st.scopes + [map[]], callEnv, [], []) == s1.scopes;
    assert Nearest(s1.scopes, callEnv, "i") == 1;
    IncrementStep(callEnv, s1, n, fuel);
    var scopes := st.scopes[1 := st.scopes[1]["i" := Num(n + 1.0)]] + [map[]];
    var s2 := st.(scopes := scopes);
    assert (st.scopes + [map[]])[1 := st.scopes[1]["i" := Num(n + 1.0)]] == scopes;
    assert Assign(s1.scopes, callEnv, I, Num(n + 1.0)) == Ok(scopes);
    assert Exec(body[0], callEnv, s1, fuel) == ExecResult(Normal, s2);
    assert Nearest(s2.scopes, callEnv, "i") == 1;
    assert s2.scopes[1]["i"] == Num(n + 1.0);
    assert Eval(Variable(I), callEnv, s2, fuel - 1) == EvalResult(Ok(Num(n + 1.0)), s2);
    assert Exec(body[1], callEnv, s2, fuel) == ExecResult(Returned(Num(n + 1.0)), s2);
    assert ExecSeq(body[1..], callEnv, s2, fuel) == ExecResult(Returned(Num(n + 1.0)), s2);
    assert ExecSeq(body, callEnv, s1, fuel) == ExecResult(Returned(Num(n + 1.0)), s2);
  }

  /** `var name = v;` with a literal initializer. */
  lemma VarLiteralStep(name: Token, v: Val, env: Env, st: State, fuel: nat)
    requires Live(st, env) && fuel >= 2
    ensures Exec(VarDecl(name, Some(Literal(v))), env, st, fuel) ==
              ExecResult(Normal, st.(scopes := Define(st.scopes, env, name.lexeme, v)))
  {
    assert Eval(Literal(v), env, st, fuel - 1) == EvalResult(Ok(v), st);
  }

  /** `target = source;` where both names are bound. */
  lemma CopyStep(target: Token, source: Token, env: Env, st: State, fuel: nat)
    requires Live(st, env) && fuel >= 3
    requires Lookup(st.scopes, env, source.lexeme).Some?
    requires Lookup(st.scopes, env, target.lexeme).Some?
    ensures var v := Lookup(st.scopes, env, source.lexeme).value;
            Exec(Expression(Assignment(target, Variable(source))), env, st, fuel) ==
              ExecResult(Normal, st.(scopes := Assign(st.scopes, env, target, v).value))
  {
    var v := Lookup(st.scopes, env, source.lexeme).value;
    assert Eval(Variable(source), env, st, fuel - 2) == EvalResult(Ok(v), st);
  }

  /** { var i = 0; fun inc() { i = i + 1; return i; } counter = inc; } */
  function CounterBlockStmts(): seq<Stmt> {
    [VarDecl(I, Some(Literal(Num(0.0)))), Function(IncDecl()), Expression(Assignment(Counter, Variable(IncName)))]
  }

  /** var counter;
      { var i = 0; fun inc() { i = i + 1; return i; } counter = inc; }
      print counter(); print counter(); */
  function CounterProgram(): seq<Stmt> {
    [ VarDecl(Counter, None),
      Block(CounterBlockStmts()),
      Print(Call(Variable(Counter), Paren, [])),
      Print(Call(Variable(Counter), Paren, [])) ]
  }

  /** The block of the counter program, run in a global scope that binds
      `counter`: it defines `i` and `inc` in a new scope 1 and stores the
      function, whose closure is that scope, in the global `counter`. */
  lemma CounterBlock(st: State, fuel: nat)
    requires |st.scopes| == 1 && "counter" in st.scopes[0] && fuel >= 4
    ensures var f := Fn(st.nextId, IncDecl(), [1, 0]);
            Exec(Block(CounterBlockStmts()), Global, st, fuel) ==
              ExecResult(Normal, State([st.scopes[0]["counter" := f], map["i" := Num(0.0), "inc" := f]], st.out, st.nextId + 1))
  {
    var f := Fn(st.nextId, IncDecl(), [1, 0]);
    var inner := CounterBlockStmts();
    var blockEnv: Env := [1, 0];
    assert [|st.scopes|] + Global == blockEnv;
    var b0 := st.(scopes := st.scopes + [map[]]);
    var b1 := st.(scopes := [st.scopes[0], map["i" := Num(0.0)]]);
    VarLiteralStep(I, Num(0.0), blockEnv, b0, fuel - 1);
    assert Define(b0.scopes, blockEnv, "i", Num(0.0)) == b1.scopes;
    var b2 := State([st.scopes[0], map["i" := Num(0.0), "inc" := f]], st.out, st.nextId + 1);
    assert Define(b1.scopes, blockEnv, "inc", f) == b2.scopes;
    assert Exec(inner[1], blockEnv, b1, fuel - 1) == ExecResult(Normal, b2);
    var b3 := State([st.scopes[0]["counter" := f], map["i" := Num(0.0), "inc" := f]], st.out, st.nextId + 1);
    assert Nearest(b2.scopes, blockEnv, "inc") == 0;
    assert Nearest(b2.scopes, blockEnv, "counter") == 1;
    CopyStep(Counter, IncName, blockEnv, b2, fuel - 1);
    assert b2.scopes[0 := b2.scopes[0]["counter" := f]] == b3.scopes;
    assert inner[1..][1..][1..] == [];
    assert ExecSeq(inner[2..], blockEnv, b2, fuel - 1) == ExecResult(Normal, b3);
    assert ExecSeq(inner[1..], blockEnv, b1, fuel - 1) == ExecResult(Normal, b3);
    assert ExecSeq(inner, blockEnv, b0, fuel - 1) == ExecResult(Normal, b3);
  }

  /** `print counter();` when the global `counter` holds `inc` and `i` is `n`:
      it prints `n + 1`. */
  lemma {:induction false} PrintCounterCall(st: State, n: real, fuel: nat)
    requires |st.scopes| >= 2 && st.scopes[0] == map["counter" := Fn(0, IncDecl(), [1, 0])]
    requires st.scopes[1].Keys == {"i", "inc"} && st.scopes[1]["i"] == Num(n)
    requires fuel >= 6
    ensures var scopes := st.scopes[1 := st.scopes[1]["i" := Num(n + 1.0)]] + [map[]];
            Exec(Print(Call(Variable(Counter), Paren, [])), Global, st, fuel) ==
              ExecResult(Normal, State(scopes, st.out + [Num(n + 1.0)], st.nextId))
  {
    var f := Fn(0, IncDecl(), [1, 0]);
    assert Eval(Variable(Counter), Global, st, fuel - 2) == EvalResult(Ok(f), st);
    assert EvalArgs([], Global, st, fuel - 2) == ArgsResult(Ok([]), st);
    IncCall(st, n, fuel - 2);
    var scopes := st.scopes[1 := st.scopes[1]["i" := Num(n + 1.0)]] + [map[]];
    assert CallValue(f, Paren, [], st, fuel - 2) == EvalResult(Ok(Num(n + 1.0)), st.(scopes := scopes));
    assert Eval(Call(Variable(Counter), Paren, []), Global, st, fuel - 1) == EvalResult(Ok(Num(n + 1.0)), st.(scopes := scopes));
  }

  /** The function created inside the block keeps using the block's scope after
      the block has ended, and sees the update each call makes: the program
      prints 1, then 2. */
  lemma CounterSharesItsEnvironment(fuel: nat)
    requires fuel >= 6
    ensures RunProgram(CounterProgram(), fuel).outcome == Normal
    ensures RunProgram(CounterProgram(), fuel).st.out == [Num(1.0), Num(2.0)]
  {
    var p := CounterProgram();
    var f := Fn(0, IncDecl(), [1, 0]);
    var st1 := State([map["counter" := Nil]], [], 0);
    assert Initial().scopes[0 := map["counter" := Nil]] == st1.scopes;
    assert Exec(p[0], Global, Initial(), fuel) == ExecResult(Normal, st1);
    CounterBlock(st1, fuel);
    var b3 := State([map["counter" := f], map["i" := Num(0.0), "inc" := f]], [], 1);
    assert st1.scopes[0]["counter" := f] == map["counter" := f];
    assert Exec(p[1], Global, st1, fuel) == ExecResult(Normal, b3);
    PrintCounterCall(b3, 0.0, fuel);
    var c1 := State([map["counter" := f], map["i" := Num(1.0), "inc" := f], map[]], [Num(1.0)], 1);
    assert b3.scopes[1]["i" := Num(0.0 + 1.0)] == c1.scopes[1];
    assert b3.scopes[1 := b3.scopes[1]["i" := Num(0.0 + 1.0)]] + [map[]] == c1.scopes;
    assert Exec(p[2], Global, b3, fuel) == ExecResult(Normal, c1);
    PrintCounterCall(c1, 1.0, fuel);
    var c2 := State([map["counter" := f], map["i" := Num(2.0), "inc" := f], map[], map[]], [Num(1.0), Num(2.0)], 1);
    assert c1.scopes[1]["i" := Num(1.0 + 1.0)] == c2.scopes[1];
    assert c1.scopes[1 := c1.scopes[1]["i" := Num(1.0 + 1.0)]] + [map[]] == c2.scopes;
    assert Exec(p[3], Global, c1, fuel) == ExecResult(Normal, c2);
    assert p[1..][1..][1..][1..] == [];
    assert ExecSeq(p[3..], Global, c1, fuel) == ExecResult(Normal, c2);
    assert ExecSeq(p[2..], Global, b3, fuel) == ExecResult(Normal, c2);
    assert ExecSeq(p[1..], Global, st1, fuel) == ExecResult(Normal, c2);
  }

  /** Calling a two-parameter function, bound to `callee`, with one argument
      fails with "expect 2 arguments but got 1", at the call's closing
      parenthesis. */
  lemma ArityMismatch(callee: Token, f: Val, env: Env, st: State, fuel: nat)
    requires Live(st, env) && fuel >= 2
    requires Lookup(st.scopes, env, callee.lexeme) == Some(f)
    requires f.Fn? && |f.decl.params| == 2
    ensures Eval(Call(Variable(callee), Paren, [Literal(Num(1.0))]), env, st, fuel) ==
              EvalResult(Err(RuntimeError(Paren, "expect 2 arguments but got 1")), st)
  {
    var args := [Literal(Num(1.0))];
    assert Eval(Variable(callee), env, st, fuel - 1) == EvalResult(Ok(f), st);
    OneLiteralArgument(env, st, fuel - 1);
    Properties.CallChecks(Variable(callee), Paren, args, env, st, fuel);
    assert ArityMessage(2, 1) == "expect 2 arguments but got 1";
  }

  /** The argument list `(1)` evaluates to `[1]` and leaves the state alone. */
  lemma OneLiteralArgument(env: Env, st: State, fuel: nat)
    requires Live(st, env) && fuel >= 1
    ensures EvalArgs([Literal(Num(1.0))], env, st, fuel) == ArgsResult(Ok([Num(1.0)]), st)
  {
    var args := [Literal(Num(1.0))];
    assert Eval(args[0], env, st, fuel) == EvalResult(Ok(Num(1.0)), st);
    assert EvalArgs(args[1..], env, st, fuel) == ArgsResult(Ok([]), st);
    assert [Num(1.0)] + [] == [Num(1.0)];
  }

  /** Assigning to a name no scope binds fails with "undefined variable 'x'"
      and creates no binding. */
  lemma AssignUndeclared(env: Env, st: State, fuel: nat)
    requires Live(st, env) && fuel >= 2
    requires Lookup(st.scopes, env, "x") == None
    ensures Eval(Assignment(X, Literal(Num(1.0))), env, st, fuel) ==
              EvalResult(Err(RuntimeError(X, "undefined variable 'x'")), st)
  {
    assert Eval(Literal(Num(1.0)), env, st, fuel - 1) == EvalResult(Ok(Num(1.0)), st);
  }
}
