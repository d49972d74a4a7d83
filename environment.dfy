/** The chain of lexical environments the evaluator runs against.

    All scopes live in one arena, a sequence of name-to-value maps; an `Env`
    lists the arena indices of a scope and of its enclosing scopes, innermost
    first. `Define` writes the innermost scope only, while `Get` and `Set` walk
    outward to the nearest scope that binds the name. */
module Environment {
  import opened Ast
  import opened Values

  type Scope = map<string, Val>
  type Scopes = seq<Scope>

  /** The scope at arena index `ref` exists and binds `name`. */
  predicate Binds(scopes: Scopes, ref: nat, name: string) {
    ref < |scopes| && name in scopes[ref]
  }

  /** Every scope the chain refers to exists in the arena. */
  predicate Allocated(scopes: Scopes, chain: seq<nat>) {
    forall i :: 0 <= i < |chain| ==> chain[i] < |scopes|
  }

  /** The position in `chain` of the nearest scope that binds `name`, or
      `|chain|` when none does. */
  function Nearest(scopes: Scopes, chain: seq<nat>, name: string): (k: nat)
    ensures k <= |chain|
    ensures k < |chain| ==> Binds(scopes, chain[k], name)
    ensures forall j :: 0 <= j < k ==> !Binds(scopes, chain[j], name)
    decreases |chain|
  {
    if |chain| == 0 then 0
    else if Binds(scopes, chain[0], name) then 0
    else 1 + Nearest(scopes, chain[1..], name)
  }

  /** The value of `name` as seen from `chain`, if any scope on it binds it. */
  function Lookup(scopes: Scopes, chain: seq<nat>, name: string): (r: Option<Val>)
    ensures r.Some? <==> exists i :: 0 <= i < |chain| && Binds(scopes, chain[i], name)
    // the value found is the nearest binding's
    ensures r.Some? ==> var k := Nearest(scopes, chain, name);
                        k < |chain| && r.value == scopes[chain[k]][name]
  {
    var k := Nearest(scopes, chain, name);
    if k < |chain| then Some(scopes[chain[k]][name]) else None
  }

  function UndefinedMessage(name: string): string {
    "undefined variable '" + name + "'"
  }

  /** The undefined-variable error text quotes the name, which can be read back
      from it, so different names give different messages. */
  lemma UndefinedMessageShape(name: string, other: string)
    ensures var m := UndefinedMessage(name);
            |m| == |name| + 21 && m[..20] == "undefined variable '" &&
            m[20..|m| - 1] == name && m[|m| - 1] == '\''
    ensures UndefinedMessage(name) == UndefinedMessage(other) ==> name == other
  {
    var m := UndefinedMessage(name);
    assert m[20..|m| - 1] == name;
    var m2 := UndefinedMessage(other);
    if m == m2 {
      assert m2[20..|m2| - 1] == other;
    }
  }

  /** Env.Define: bind `name` in the innermost scope, overwriting any binding it
      already has there; no other scope changes. */
  function Define(scopes: Scopes, env: Env, name: string, v: Val): (r: Scopes)
    requires env[0] < |scopes|
    ensures |r| == |scopes|
    ensures r[env[0]] == scopes[env[0]][name := v]
    ensures forall i :: 0 <= i < |scopes| && i != env[0] ==> r[i] == scopes[i]
  {
    scopes[env[0] := scopes[env[0]][name := v]]
  }

  /** Env.Get: the nearest binding of the name, or an undefined-variable error. */
  function Get(scopes: Scopes, env: Env, name: Token): (r: Result<Val>)
    ensures r.Ok? <==> Lookup(scopes, env, name.lexeme).Some?
    ensures r.Ok? ==> r.value == Lookup(scopes, env, name.lexeme).value
    ensures r.Err? ==> r.error == RuntimeError(name, UndefinedMessage(name.lexeme))
  {
    match Lookup(scopes, env, name.lexeme)
    case Some(v) => Ok(v)
    case None => Err(RuntimeError(name, UndefinedMessage(name.lexeme)))
  }

  /** Env.Set: overwrite the nearest binding of the name; assignment never
      creates a binding, so an unbound name is an undefined-variable error. */
  function Assign(scopes: Scopes, env: Env, name: Token, v: Val): (r: Result<Scopes>)
    ensures r.Ok? <==> Lookup(scopes, env, name.lexeme).Some?
    ensures r.Err? ==> r.error == RuntimeError(name, UndefinedMessage(name.lexeme))
    ensures r.Ok? ==> |r.value| == |scopes|
    ensures r.Ok? ==> forall i :: 0 <= i < |scopes| ==> r.value[i].Keys == scopes[i].Keys
    // only the nearest binding changes; shadowed outer bindings keep their values
    ensures r.Ok? ==> var ref := env[Nearest(scopes, env, name.lexeme)];
                      r.value[ref] == scopes[ref][name.lexeme := v] &&
                      forall i :: 0 <= i < |scopes| && i != ref ==> r.value[i] == scopes[i]
  {
    var k := Nearest(scopes, env, name.lexeme);
    if k < |env| then
      var ref := env[k];
      Ok(scopes[ref := scopes[ref][name.lexeme := v]])
    else
      Err(RuntimeError(name, UndefinedMessage(name.lexeme)))
  }

  /** Lookups depend only on the scopes the chain refers to. */
  lemma {:induction false} LookupFrame(s1: Scopes, s2: Scopes, chain: seq<nat>, name: string)
    requires forall i :: 0 <= i < |chain| ==>
               (chain[i] < |s1| <==> chain[i] < |s2|) &&
               (chain[i] < |s1| ==> s1[chain[i]] == s2[chain[i]])
    ensures Nearest(s1, chain, name) == Nearest(s2, chain, name)
    ensures Lookup(s1, chain, name) == Lookup(s2, chain, name)
    decreases |chain|
  {
    if |chain| > 0 && !Binds(s1, chain[0], name) {
      LookupFrame(s1, s2, chain[1..], name);
    }
  }

  /** Where the nearest binding is found depends only on which scopes bind the
      name, not on their values. */
  lemma {:induction false} NearestByKeys(s1: Scopes, s2: Scopes, chain: seq<nat>, name: string)
    requires forall i :: 0 <= i < |chain| ==> (Binds(s1, chain[i], name) <==> Binds(s2, chain[i], name))
    ensures Nearest(s1, chain, name) == Nearest(s2, chain, name)
    decreases |chain|
  {
    if |chain| > 0 && !Binds(s1, chain[0], name) {
      NearestByKeys(s1, s2, chain[1..], name);
    }
  }

  /** After a definition the name reads back as the defined value from the
      same environment. */
  lemma GetAfterDefine(scopes: Scopes, env: Env, name: string, v: Val)
    requires env[0] < |scopes|
    ensures Lookup(Define(scopes, env, name, v), env, name) == Some(v)
  {
  }

  /** A definition leaves every other name reading as before. */
  lemma GetOtherAfterDefine(scopes: Scopes, env: Env, name: string, v: Val, other: string)
    requires env[0] < |scopes|
    requires other != name
    ensures Lookup(Define(scopes, env, name, v), env, other) == Lookup(scopes, env, other)
  {
    var s := Define(scopes, env, name, v);
    NearestByKeys(scopes, s, env, other);
    var k := Nearest(scopes, env, other);
    if k < |env| {
      assert s[env[k]][other] == scopes[env[k]][other];
    }
  }

  /** After a successful assignment the name reads back as the assigned value,
      and every other name reads as before. */
  lemma GetAfterSet(scopes: Scopes, env: Env, name: Token, v: Val, other: string)
    requires Assign(scopes, env, name, v).Ok?
    requires other != name.lexeme
    ensures Lookup(Assign(scopes, env, name, v).value, env, name.lexeme) == Some(v)
    ensures Lookup(Assign(scopes, env, name, v).value, env, other) == Lookup(scopes, env, other)
  {
    var s := Assign(scopes, env, name, v).value;
    NearestByKeys(scopes, s, env, name.lexeme);
    NearestByKeys(scopes, s, env, other);
    var k := Nearest(scopes, env, other);
    if k < |env| {
      assert s[env[k]][other] == scopes[env[k]][other];
    }
  }

  /** A definition in a scope that a chain does not refer to is invisible
      from that chain, whatever name it binds. */
  lemma DefineOffChain(scopes: Scopes, env: Env, outer: seq<nat>, name: string, v: Val, other: string)
    requires env[0] < |scopes|
    requires forall i :: 0 <= i < |outer| ==> outer[i] != env[0]
    ensures Lookup(Define(scopes, env, name, v), outer, other) == Lookup(scopes, outer, other)
  {
    LookupFrame(Define(scopes, env, name, v), scopes, outer, other);
  }

  /** Shadowing: a definition in a freshly allocated innermost scope is
      invisible from the enclosing environment, whatever name it binds. */
  lemma DefineInFreshScope(scopes: Scopes, outer: seq<nat>, newScope: Scope, name: string, v: Val, other: string)
    requires Allocated(scopes, outer)
    ensures Lookup(Define(scopes + [newScope], [|scopes|] + outer, name, v), outer, other) == Lookup(scopes, outer, other)
  {
    var s := Define(scopes + [newScope], [|scopes|] + outer, name, v);
    LookupFrame(s, scopes, outer, other);
  }
}
