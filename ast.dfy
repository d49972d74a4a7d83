/** Syntax tree and runtime values of the golox evaluator.

    Expression and statement nodes follow the node structs the evaluator walks
    (ExprLiteral, ExprBinary, StmtBlock, StmtFuncDecl, ...). Operators carry their
    kind as a small enumeration instead of a full token type, so the "unknown
    operator" panics of the evaluator have no counterpart here. */
module Ast {

  datatype Option<T> = None | Some(value: T)

  /** The parts of a source token that the evaluator uses: its text (a name) and
      its line (for attributing runtime errors). */
  datatype Token = Token(lexeme: string, line: int)

  datatype UnaryOp = Bang | Minus

  datatype BinaryOp =
    | Plus | Subtract | Slash | Star
    | Greater | GreaterEqual | Less | LessEqual
    | EqualEqual | BangEqual

  datatype LogicalOp = And | Or

  /** A reference to an environment: the index of its own scope in the scope
      arena, followed by the references of its enclosing environments, innermost
      first. An environment's parent never changes once it is created, so this
      chain is exactly what a pointer to it determines. */
  type Env = e: seq<nat> | |e| > 0 witness [0]

  /** Runtime values. A function value is a declaration together with the
      environment it closes over; `id` distinguishes two values created by two
      executions of a declaration (Go compares them by address). */
  datatype Val =
    | Nil
    | Bool(b: bool)
    | Num(n: real)
    | Str(s: string)
    | Fn(id: nat, decl: FunDecl, closure: Env)

  datatype FunDecl = FunDecl(name: Token, params: seq<Token>, body: seq<Stmt>)

  datatype Expr =
    | Literal(value: Val)
    | Grouping(operand: Expr)
    | Unary(unaryOp: UnaryOp, operand: Expr)
    | Binary(binaryOp: BinaryOp, operator: Token, left: Expr, right: Expr)
    | Logical(logicalOp: LogicalOp, left: Expr, right: Expr)
    | Variable(name: Token)
    | Assignment(name: Token, val: Expr)
    | Call(callee: Expr, paren: Token, arguments: seq<Expr>)

  datatype Stmt =
    | Print(expr: Expr)
    | Expression(expr: Expr)
    | VarDecl(name: Token, value: Option<Expr>)
    | Block(stmts: seq<Stmt>)
    | If(condition: Expr, trueBranch: Stmt, falseBranch: Option<Stmt>)
    | While(condition: Expr, body: Stmt)
    | Function(decl: FunDecl)
    | Return(value: Option<Expr>)
}
