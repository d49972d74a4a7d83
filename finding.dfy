/** Function declarations as the Go code writes them.

    There a declaration node is one object: running it stores the current
    environment in the node's single `closure` field and binds the node itself
    as the function value. A node that runs twice (a declaration inside a
    function body or a loop) therefore moves the closure of the value created
    the first time. The rest of the model creates a new function value, with its
    own closure, on every execution instead (module Semantics, case
    `Function`). */
module ClosureFinding {
  import opened Ast

  /** The `closure` field of each declaration node. Nodes are keyed by their
      declaration value, so two textually identical declarations stand for one
      node here, where Go tells them apart by pointer; the finding concerns one
      node run twice, which this keying represents exactly. */
  type ClosureFields = map<FunDecl, Env>

  /** What one execution of a declaration yields as written: the value bound
      to the name, which is the node, and the updated closure fields. */
  datatype Declared = Declared(value: FunDecl, fields: ClosureFields)

  /** StmtFuncDecl.Run as written: overwrite the node's closure field, then
      bind the node. */
  function RunFunctionAsWritten(decl: FunDecl, env: Env, fields: ClosureFields): (r: Declared)
    ensures r.value == decl && r.value in r.fields && r.fields[r.value] == env
    ensures r.fields.Keys == fields.Keys + {decl}
    ensures forall d :: d in fields && d != decl ==> d in r.fields && r.fields[d] == fields[d]
  {
    Declared(decl, fields[decl := env])
  }

  /** Running the same declaration in a second environment changes the closure
      of the value the first run produced: the first function now resolves its
      free variables in the second environment. */
  lemma AsWrittenSecondRunMovesFirstClosure(decl: FunDecl, env1: Env, env2: Env, fields: ClosureFields)
    requires env1 != env2
    ensures var first := RunFunctionAsWritten(decl, env1, fields);
            var second := RunFunctionAsWritten(decl, env2, first.fields);
            first.fields[first.value] == env1 &&
            first.value == second.value &&
            second.fields[first.value] == env2 &&
            second.fields[first.value] != env1
  {
  }
}
