/** Value helpers and operator semantics of the evaluator: truthiness, the type
    tests and conversions, and what unary and binary operators compute once their
    operands have been evaluated. */
module Values {
  import opened Ast

  /** Why an evaluation stopped. `RuntimeError` is the language's own error,
      raised with the offending token. `Panic` is a Go runtime crash that is not a
      RuntimeError (a failed type assertion). `OutOfFuel` exists only in the
      model: the evaluation bound ran out. */
  datatype Error =
    | RuntimeError(token: Token, msg: string)
    | Panic(msg: string)
    | OutOfFuel

  datatype Result<T> = Ok(value: T) | Err(error: Error)

  const MustBeNumbers := "operands must be numbers"
  const MustBeNumbersOrStrings := "operands must be two numbers or two strings"
  const DivideByZero := "divide by zero"
  const NotCallable := "can only call functions and classes"

  /** getTruthy: `nil` and `false` are falsey, everything else is truthy. */
  function Truthy(v: Val): (b: bool)
    ensures !b <==> v == Nil || v == Bool(false)
    ensures v.Num? || v.Str? || v.Fn? ==> b
  {
    match v
    case Nil => false
    case Bool(b) => b
    case _ => true
  }

  /** isNumber: the value holds a number, and so is no string. */
  predicate IsNumber(v: Val): (b: bool)
    ensures b <==> exists n: real :: v == Num(n)
    ensures b ==> !IsString(v)
  {
    v.Num?
  }

  /** isString: the value holds a string, and so is no number. */
  predicate IsString(v: Val): (b: bool)
    ensures b <==> exists t: string :: v == Str(t)
  {
    v.Str?
  }

  function ToNumber(v: Val): (n: real)
    requires IsNumber(v)
    ensures Num(n) == v
  {
    v.n
  }

  function ToString(v: Val): (s: string)
    requires IsString(v)
    ensures Str(s) == v
  {
    v.s
  }

  /** Unary `!` negates truthiness; unary `-` negates a number and, on anything
      else, crashes with a failed type assertion rather than a RuntimeError. */
  function ApplyUnary(op: UnaryOp, v: Val): (r: Result<Val>)
    ensures op == Bang ==> r.Ok? && r.value.Bool? && r.value.b != Truthy(v)
    ensures op == Minus ==> (r.Ok? <==> IsNumber(v))
    ensures op == Minus && r.Ok? ==> r.value.Num? && r.value.n + v.n == 0.0
    ensures r.Err? ==> r.error.Panic?
  {
    match op
    case Bang => Ok(Bool(!Truthy(v)))
    case Minus =>
      if IsNumber(v) then Ok(Num(-ToNumber(v)))
      else Err(Panic("interface conversion: operand is not a Number"))
  }

  /** The operators that first check that both operands are numbers. */
  predicate IsNumericOp(op: BinaryOp) {
    op in {Subtract, Slash, Star, Greater, GreaterEqual, Less, LessEqual}
  }

  /** A numeric operator applied to two numbers. */
  function Arithmetic(op: BinaryOp, operator: Token, a: real, b: real): (r: Result<Val>)
    requires IsNumericOp(op)
    ensures r.Err? <==> op == Slash && b == 0.0
    ensures r.Err? ==> r.error == RuntimeError(operator, DivideByZero)
    ensures op == Subtract ==> r == Ok(Num(a - b))
    ensures op == Slash && b != 0.0 ==> r == Ok(Num(a / b))
    ensures op == Star ==> r == Ok(Num(a * b))
    ensures op == Greater ==> r == Ok(Bool(a > b))
    ensures op == GreaterEqual ==> r == Ok(Bool(a >= b))
    ensures op == Less ==> r == Ok(Bool(a < b))
    ensures op == LessEqual ==> r == Ok(Bool(a <= b))
  {
    match op
    case Subtract => Ok(Num(a - b))
    case Slash => if b == 0.0 then Err(RuntimeError(operator, DivideByZero)) else Ok(Num(a / b))
    case Star => Ok(Num(a * b))
    case Greater => Ok(Bool(a > b))
    case GreaterEqual => Ok(Bool(a >= b))
    case Less => Ok(Bool(a < b))
    case LessEqual => Ok(Bool(a <= b))
  }

  /** A binary operator applied to its two already evaluated operands. */
  function ApplyBinary(op: BinaryOp, operator: Token, left: Val, right: Val): (r: Result<Val>)
    // `+`: numbers add, strings concatenate, any other pair is an error
    ensures op == Plus ==> (r.Ok? <==> (left.Num? && right.Num?) || (left.Str? && right.Str?))
    ensures op == Plus && left.Num? && right.Num? ==> r == Ok(Num(left.n + right.n))
    ensures op == Plus && left.Str? && right.Str? ==> r == Ok(Str(left.s + right.s))
    ensures op == Plus && r.Err? ==> r.error == RuntimeError(operator, MustBeNumbersOrStrings)
    // the numeric operators check both operand types before anything else
    ensures IsNumericOp(op) && !(left.Num? && right.Num?) ==> r == Err(RuntimeError(operator, MustBeNumbers))
    ensures IsNumericOp(op) && left.Num? && right.Num? ==> r == Arithmetic(op, operator, left.n, right.n)
    ensures op == Slash && left.Num? && right.Num? ==>
              (r.Err? <==> right.n == 0.0) &&
              (right.n == 0.0 ==> r == Err(RuntimeError(operator, DivideByZero))) &&
              (right.n != 0.0 ==> r == Ok(Num(left.n / right.n)))
    // equality never fails
    ensures op == EqualEqual || op == BangEqual ==> r.Ok? && r.value.Bool?
  {
    match op
    case Plus =>
      if IsNumber(left) && IsNumber(right) then Ok(Num(ToNumber(left) + ToNumber(right)))
      else if IsString(left) && IsString(right) then Ok(Str(ToString(left) + ToString(right)))
      else Err(RuntimeError(operator, MustBeNumbersOrStrings))
    case EqualEqual => Ok(Bool(left == right))
    case BangEqual => Ok(Bool(left != right))
    case _ =>
      if !(IsNumber(left) && IsNumber(right)) then Err(RuntimeError(operator, MustBeNumbers))
      else Arithmetic(op, operator, ToNumber(left), ToNumber(right))
  }

  /** The decimal rendering of a count, as `%d` prints it. */
  function NatToString(n: nat): (s: string)
    ensures |s| > 0
    ensures forall i :: 0 <= i < |s| ==> '0' <= s[i] <= '9'
    // no leading zero, as `%d` prints it
    ensures n > 0 ==> s[0] != '0'
    ensures |s| > 1 ==> s[0] != '0'
    decreases n
  {
    if n < 10 then [Digit(n)] else NatToString(n / 10) + [Digit(n % 10)]
  }

  function Digit(d: nat): (c: char)
    requires d < 10
    ensures '0' <= c <= '9' && c as int - '0' as int == d
  {
    ('0' as int + d) as char
  }

  /** Reads a string of decimal digits back as a number. */
  function DecimalValue(s: string): nat
    requires forall i :: 0 <= i < |s| ==> '0' <= s[i] <= '9'
  {
    if |s| == 0 then 0
    else DecimalValue(s[..|s| - 1]) * 10 + (s[|s| - 1] as int - '0' as int)
  }

  /** The rendered count reads back as the same count. */
  lemma {:induction false} DecimalRoundTrip(n: nat)
    ensures DecimalValue(NatToString(n)) == n
    decreases n
  {
    if n >= 10 {
      DecimalRoundTrip(n / 10);
      var s := NatToString(n);
      assert s[..|s| - 1] == NatToString(n / 10);
    }
  }

  /** The arity error: "expect N arguments but got M". */
  function ArityMessage(expected: nat, got: nat): string {
    "expect " + NatToString(expected) + " arguments but got " + NatToString(got)
  }

  /** The arity error text holds the two counts in decimal at fixed places
      around " arguments but got ", and each reads back as its count. */
  lemma ArityMessageShape(expected: nat, got: nat)
    ensures var m := ArityMessage(expected, got);
            var e := NatToString(expected);
            var g := NatToString(got);
            |m| == |e| + |g| + 26 && m[..7] == "expect " &&
            m[7 + |e|..|m| - |g|] == " arguments but got " &&
            DecimalValue(m[7..7 + |e|]) == expected && DecimalValue(m[|m| - |g|..]) == got
  {
    var m := ArityMessage(expected, got);
    var e := NatToString(expected);
    var g := NatToString(got);
    assert m[7..7 + |e|] == e;
    assert m[|m| - |g|..] == g;
    DecimalRoundTrip(expected);
    DecimalRoundTrip(got);
  }

  /** `==` and `!=` are exact negations of each other, compare without coercion
      across kinds, and treat `nil` as equal to itself. */
  lemma EqualityIsExact(operator: Token, left: Val, right: Val)
    ensures ApplyBinary(EqualEqual, operator, left, right) == Ok(Bool(left == right))
    ensures ApplyBinary(BangEqual, operator, left, right) == Ok(Bool(!ApplyBinary(EqualEqual, operator, left, right).value.b))
    ensures ApplyBinary(EqualEqual, operator, Num(1.0), Str("1")) == Ok(Bool(false))
    ensures ApplyBinary(EqualEqual, operator, Nil, Nil) == Ok(Bool(true))
  {
  }

  /** `!!v` is the truthiness of `v`. */
  lemma DoubleBang(v: Val)
    ensures ApplyUnary(Bang, ApplyUnary(Bang, v).value) == Ok(Bool(Truthy(v)))
  {
  }

  /** The comparisons agree with each other: `a > b` is `b < a` and is the
      negation of `a <= b`; likewise for `>=`. */
  lemma ComparisonsAgree(operator: Token, a: real, b: real)
    ensures ApplyBinary(Greater, operator, Num(a), Num(b)) == ApplyBinary(Less, operator, Num(b), Num(a))
    ensures ApplyBinary(GreaterEqual, operator, Num(a), Num(b)) == ApplyBinary(LessEqual, operator, Num(b), Num(a))
    ensures ApplyBinary(Greater, operator, Num(a), Num(b)).value.b == !ApplyBinary(LessEqual, operator, Num(a), Num(b)).value.b
    ensures ApplyBinary(GreaterEqual, operator, Num(a), Num(b)).value.b == !ApplyBinary(Less, operator, Num(a), Num(b)).value.b
  {
  }
}
