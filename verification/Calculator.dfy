/** The calculator's evaluator over expression trees, with exact arithmetic
    (internal/application/usecase/tool/builtin/calculator.go:72-114). */
module Calculator {
  import opened Wrappers

  datatype BinaryOp = Add | Sub | Mul | Quo | OtherBinary(token: string)

  datatype UnaryOp = Minus | OtherUnary(token: string)

  /** Go's expression trees, as far as the evaluator tells them apart. */
  datatype Expr =
    | BasicLit(text: string)
    | Binary(op: BinaryOp, x: Expr, y: Expr)
    | Paren(inner: Expr)
    | Unary(sign: UnaryOp, operand: Expr)
    | OtherExpr

  datatype Fault =
    | BadLiteral(text: string) | DivisionByZero | UnsupportedOperator(token: string) | UnsupportedExpression

  /** Number syntax is an oracle. */
  type Literals = string -> Option<real>

  function Times(a: real, b: real): real {
    a * b
  }

  function Over(a: real, b: real): real
    requires b != 0.0
  {
    a / b
  }

  function Apply(op: BinaryOp, left: real, right: real): Result<real, Fault> {
    match op
    case Add => Ok(left + right)
    case Sub => Ok(left - right)
    case Mul => Ok(Times(left, right))
    case Quo => if right == 0.0 then Err(DivisionByZero) else Ok(Over(left, right))
    case OtherBinary(token) => Err(UnsupportedOperator(token))
  }

  function Eval(lits: Literals, e: Expr): Result<real, Fault> {
    match e
    case BasicLit(text) =>
      (match lits(text)
       case Some(v) => Ok(v)
       case None => Err(BadLiteral(text)))
    case Binary(op, x, y) =>
      var left := Eval(lits, x);
      if left.Err? then left
      else
        var right := Eval(lits, y);
        if right.Err? then right else Apply(op, left.value, right.value)
    case Paren(inner) => Eval(lits, inner)
    case Unary(sign, operand) =>
      var v := Eval(lits, operand);
      if v.Err? then v else if sign.Minus? then Ok(-v.value) else v
    case OtherExpr => Err(UnsupportedExpression)
  }

  // ----- the reference: a total denotation and the list of all faults -----

  /** The number an expression denotes; arbitrary where it denotes none. */
  function Denote(lits: Literals, e: Expr): real {
    match e
    case BasicLit(text) => if lits(text).Some? then lits(text).value else 0.0
    case Binary(op, x, y) =>
      var a, b := Denote(lits, x), Denote(lits, y);
      if op.Add? then a + b
      else if op.Sub? then a - b
      else if op.Mul? then Times(a, b)
      else if op.Quo? && b != 0.0 then Over(a, b)
      else 0.0
    case Paren(inner) => Denote(lits, inner)
    case Unary(sign, operand) => if sign.Minus? then -Denote(lits, operand) else Denote(lits, operand)
    case OtherExpr => 0.0
  }

  /** What is wrong with an operator once its operands are fine. */
  function OperatorFaults(lits: Literals, op: BinaryOp, y: Expr): seq<Fault> {
    match op
    case OtherBinary(token) => [UnsupportedOperator(token)]
    case Quo => if Denote(lits, y) == 0.0 then [DivisionByZero] else []
    case _ => []
  }

  /** All faults in left-to-right post-order, whether or not evaluation gets that far. */
  function Faults(lits: Literals, e: Expr): seq<Fault> {
    match e
    case BasicLit(text) => if lits(text).Some? then [] else [BadLiteral(text)]
    case Binary(op, x, y) => Faults(lits, x) + Faults(lits, y) + OperatorFaults(lits, op, y)
    case Paren(inner) => Faults(lits, inner)
    case Unary(_, operand) => Faults(lits, operand)
    case OtherExpr => [UnsupportedExpression]
  }

  /** Every literal parses, every node and binary operator is supported. */
  predicate Supported(lits: Literals, e: Expr) {
    match e
    case BasicLit(text) => lits(text).Some?
    case Binary(op, x, y) => !op.OtherBinary? && Supported(lits, x) && Supported(lits, y)
    case Paren(inner) => Supported(lits, inner)
    case Unary(_, operand) => Supported(lits, operand)
    case OtherExpr => false
  }

  function Divisors(e: Expr): set<Expr> {
    match e
    case Binary(op, x, y) => Divisors(x) + Divisors(y) + if op.Quo? then {y} else {}
    case Paren(inner) => Divisors(inner)
    case Unary(_, operand) => Divisors(operand)
    case _ => {}
  }

  lemma FirstOf<T>(a: seq<T>, b: seq<T>, c: seq<T>)
    ensures a + b + c == [] <==> a == [] && b == [] && c == []
    ensures a != [] ==> (a + b + c)[0] == a[0]
    ensures a == [] && b != [] ==> (a + b + c)[0] == b[0]
    ensures a == [] && b == [] ==> a + b + c == c
  {
    assert |a + b + c| == |a| + |b| + |c|;
  }

  predicate NoneZero(lits: Literals, divisors: set<Expr>) {
    forall d :: d in divisors ==> Denote(lits, d) != 0.0
  }

  lemma NoneZeroUnion(lits: Literals, a: set<Expr>, b: set<Expr>)
    ensures NoneZero(lits, a + b) <==> NoneZero(lits, a) && NoneZero(lits, b)
  {
  }

  /** Evaluation gives the denotation, or the first of all faults. */
  lemma {:induction false} EvalMeaning(lits: Literals, e: Expr)
    ensures Eval(lits, e) == var faults := Faults(lits, e);
                             if faults == [] then Ok(Denote(lits, e)) else Err(faults[0])
  {
    hide Times, Over;
    match e
    case Binary(op, x, y) =>
      EvalMeaning(lits, x);
      EvalMeaning(lits, y);
      FirstOf(Faults(lits, x), Faults(lits, y), OperatorFaults(lits, op, y));
    case Paren(inner) => EvalMeaning(lits, inner);
    case Unary(_, operand) => EvalMeaning(lits, operand);
    case _ =>
  }

  lemma {:induction false} FaultlessIff(lits: Literals, e: Expr)
    ensures Faults(lits, e) == [] <==> Supported(lits, e) && NoneZero(lits, Divisors(e))
  {
    hide Times, Over;
    match e
    case Binary(op, x, y) =>
      FaultlessIff(lits, x);
      FaultlessIff(lits, y);
      FirstOf(Faults(lits, x), Faults(lits, y), OperatorFaults(lits, op, y));
      NoneZeroUnion(lits, Divisors(x), Divisors(y));
      NoneZeroUnion(lits, Divisors(x) + Divisors(y), if op.Quo? then {y} else {});
      hide Denote;
      assert NoneZero(lits, {y}) <==> Denote(lits, y) != 0.0;
    case Paren(inner) => FaultlessIff(lits, inner);
    case Unary(_, operand) => FaultlessIff(lits, operand);
    case _ =>
  }

  /** Evaluation succeeds exactly when everything is supported and no divisor denotes zero. */
  lemma SucceedsIff(lits: Literals, e: Expr)
    ensures Eval(lits, e).Ok? <==> Supported(lits, e) && NoneZero(lits, Divisors(e))
  {
    EvalMeaning(lits, e);
    FaultlessIff(lits, e);
  }

  /** The tree without parentheses and without unary operators other than minus. */
  function Strip(e: Expr): Expr {
    match e
    case Binary(op, x, y) => Binary(op, Strip(x), Strip(y))
    case Paren(inner) => Strip(inner)
    case Unary(sign, operand) => if sign.Minus? then Unary(sign, Strip(operand)) else Strip(operand)
    case _ => e
  }

  lemma {:induction false} StripChangesNothing(lits: Literals, e: Expr)
    ensures Eval(lits, Strip(e)) == Eval(lits, e)
  {
    match e
    case Binary(op, x, y) =>
      StripChangesNothing(lits, x);
      StripChangesNothing(lits, y);
    case Paren(inner) => StripChangesNothing(lits, inner);
    case Unary(_, operand) => StripChangesNothing(lits, operand);
    case _ =>
  }

  // ----- the laws of arithmetic -----

  lemma OfOperands(lits: Literals, op: BinaryOp, x: Expr, y: Expr, a: real, b: real)
    requires Eval(lits, x) == Ok(a) && Eval(lits, y) == Ok(b)
    ensures Eval(lits, Binary(op, x, y)) == Apply(op, a, b)
  {
    hide Apply;
  }

  /** Sums commute, a difference undoes a sum, and a negation a summand. */
  lemma SumsHold(lits: Literals, x: Expr, y: Expr)
    ensures Eval(lits, x).Ok? && Eval(lits, y).Ok? ==>
              && Eval(lits, Binary(Add, x, y)) == Eval(lits, Binary(Add, y, x))
              && Eval(lits, Binary(Sub, Binary(Add, x, y), y)) == Eval(lits, x)
              && Eval(lits, Binary(Add, x, Unary(Minus, x))) == Ok(0.0)
  {
    if Eval(lits, x).Ok? && Eval(lits, y).Ok? {
      var a, b := Eval(lits, x).value, Eval(lits, y).value;
      assert Eval(lits, Unary(Minus, x)) == Ok(-a);
      SumHolds(a, b);
      hide Eval, Apply;
      OfOperands(lits, Add, x, y, a, b);
      OfOperands(lits, Add, y, x, b, a);
      OfOperands(lits, Sub, Binary(Add, x, y), y, a + b, b);
      OfOperands(lits, Add, x, Unary(Minus, x), a, -a);
    }
  }

  lemma SumHolds(a: real, b: real)
    ensures Apply(Add, a, b) == Apply(Add, b, a) == Ok(a + b)
    ensures Apply(Sub, a + b, b) == Ok(a) && Apply(Add, a, -a) == Ok(0.0)
  {
  }

  /** Products commute and distribute over sums. */
  lemma ProductsDistribute(lits: Literals, x: Expr, y: Expr, z: Expr)
    ensures Eval(lits, x).Ok? && Eval(lits, y).Ok? && Eval(lits, z).Ok? ==>
              && Eval(lits, Binary(Mul, x, y)) == Eval(lits, Binary(Mul, y, x))
              && Eval(lits, Binary(Mul, x, Binary(Add, y, z)))
                 == Eval(lits, Binary(Add, Binary(Mul, x, y), Binary(Mul, x, z)))
  {
    hide Eval, Times;
    if Eval(lits, x).Ok? && Eval(lits, y).Ok? && Eval(lits, z).Ok? {
      var a, b, c := Eval(lits, x).value, Eval(lits, y).value, Eval(lits, z).value;
      ProductsHold(a, b, c);
      OfOperands(lits, Mul, x, y, a, b);
      OfOperands(lits, Mul, y, x, b, a);
      OfOperands(lits, Mul, x, z, a, c);
      OfOperands(lits, Add, y, z, b, c);
      OfOperands(lits, Mul, x, Binary(Add, y, z), a, b + c);
      OfOperands(lits, Add, Binary(Mul, x, y), Binary(Mul, x, z), Times(a, b), Times(a, c));
    }
  }

  /** A quotient times its divisor is the dividend. */
  lemma QuotientsHold(lits: Literals, x: Expr, y: Expr)
    ensures Eval(lits, Binary(Quo, x, y)).Ok? ==>
              Eval(lits, Binary(Mul, Binary(Quo, x, y), y)) == Eval(lits, x)
  {
    if Eval(lits, Binary(Quo, x, y)).Ok? {
      var a, b := Eval(lits, x).value, Eval(lits, y).value;
      QuotientHolds(a, b);
      hide Eval, Times, Over;
      OfOperands(lits, Quo, x, y, a, b);
      OfOperands(lits, Mul, Binary(Quo, x, y), y, Over(a, b), b);
    }
  }

  lemma ProductsHold(a: real, b: real, c: real)
    ensures Times(a, b) == Times(b, a) && Times(a, b + c) == Times(a, b) + Times(a, c)
  {
  }

  lemma QuotientHolds(a: real, b: real)
    requires b != 0.0
    ensures Times(Over(a, b), b) == a
  {
  }

  /** One is neutral, so products are those of the numbers the literals stand for. */
  lemma OneIsNeutral(lits: Literals, x: Expr, one: string)
    requires lits(one) == Some(1.0)
    ensures Eval(lits, x).Ok? ==>
              && Eval(lits, Binary(Mul, x, BasicLit(one))) == Eval(lits, x)
              && Eval(lits, Binary(Quo, x, BasicLit(one))) == Eval(lits, x)
  {
    if Eval(lits, x).Ok? {
      TimesOne(Eval(lits, x).value);
      hide Times, Over;
    }
  }

  lemma TimesOne(a: real)
    ensures Times(a, 1.0) == a && Over(a, 1.0) == a
  {
  }
}
