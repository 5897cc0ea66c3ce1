/** The mature simplifier: a single rewrite step, `DoSimplifyExpression`,
    iterated to a fixpoint by `SimplifyExpression`. */
module Simplifiable {
  import opened Wrappers
  import opened ExpressionModel

  /** Sine and Cosine nodes reduce only through their argument. */
  function SimplifyFunctionSubexpression(function_kind: Function, expression: Expression): (r: Option<Expression>)
    ensures r.Some? ==> Size(r.value) < 1 + Size(expression)
    ensures r.Some? ==> Variables(r.value) <= Variables(expression)
    decreases Size(expression) + 1, 0
  {
    match DoSimplifyExpression(expression)
    case Some(reduced) => Some(Function(function_kind, reduced))
    case None => None
  }

  /** `sin(0)` vanishes; any other function node reduces its argument. */
  function SimplifyFunction(function_kind: Function, expression: Expression): (r: Option<Expression>)
    ensures r.Some? ==> Size(r.value) < 1 + Size(expression)
    ensures r.Some? ==> Variables(r.value) <= Variables(expression)
    decreases Size(expression) + 1, 1
  {
    match function_kind
    case Cosine => SimplifyFunctionSubexpression(function_kind, expression)
    case Sine =>
      if expression == Constant(0.0) then Some(Constant(0.0))
      else SimplifyFunctionSubexpression(function_kind, expression)
  }

  /** The root rules for a binary operation, first match wins; when none
      applies, the operands are reduced. */
  function SimplifyOperation(operation: BinaryOperationType, left: Expression, right: Expression): (r: Option<Expression>)
    ensures r.Some? ==> Size(r.value) < 1 + Size(left) + Size(right)
    ensures r.Some? ==> Variables(r.value) <= Variables(left) + Variables(right)
    decreases Size(left) + Size(right) + 1, 1
  {
    if left == IdentityElement(operation) then Some(right)
    else if right == IdentityElement(operation) then Some(left)
    else if operation == Multiplication && (left == Constant(0.0) || right == Constant(0.0)) then
      Some(Constant(0.0))
    else if operation == Division && left == Constant(0.0) then
      Some(Constant(0.0))
    else if operation == Addition && left.Monomial? && right.Monomial?
            && left.variable == right.variable && left.power == right.power then
      Some(Monomial(left.factor + right.factor, left.variable, left.power))
    else if operation == Multiplication && left.Monomial? && right.Constant? then
      Some(Monomial(left.factor * right.value, left.variable, left.power))
    else if operation == Multiplication && left.Constant? && right.Monomial? then
      Some(Monomial(right.factor * left.value, right.variable, right.power))
    else
      SimplifyOperationOperands(operation, left, right)
  }

  /** Reduces each operand independently and rebuilds the same operation. */
  function SimplifyOperationOperands(operation: BinaryOperationType, left: Expression, right: Expression): (r: Option<Expression>)
    ensures r.Some? ==> Size(r.value) < 1 + Size(left) + Size(right)
    ensures r.Some? ==> Variables(r.value) <= Variables(left) + Variables(right)
    decreases Size(left) + Size(right) + 1, 0
  {
    match (DoSimplifyExpression(left), DoSimplifyExpression(right))
    case (Some(l), Some(r)) => Some(BinaryOperation(operation, l, r))
    case (Some(l), None) => Some(BinaryOperation(operation, l, right))
    case (None, Some(r)) => Some(BinaryOperation(operation, left, r))
    case (None, None) => None
  }

  /** One rewrite step. Every step that fires shrinks the tree, which is
      what makes the fixpoint iteration below terminate, and never
      introduces a variable. */
  function DoSimplifyExpression(e: Expression): (r: Option<Expression>)
    ensures r.Some? ==> Size(r.value) < Size(e)
    ensures r.Some? ==> Variables(r.value) <= Variables(e)
    decreases Size(e), 2
  {
    match e
    case Function(function_kind, expression) => SimplifyFunction(function_kind, expression)
    case BinaryOperation(operation, left, right) => SimplifyOperation(operation, left, right)
    case _ => None
  }

  /** Iterates the rewrite step until it no longer applies. The result is
      irreducible, no larger than the input and has no new variable. */
  function SimplifyExpression(e: Expression): (r: Expression)
    ensures DoSimplifyExpression(r).None?
    ensures Size(r) <= Size(e)
    ensures Variables(r) <= Variables(e)
    decreases Size(e)
  {
    match DoSimplifyExpression(e)
    case Some(next) => SimplifyExpression(next)
    case None => e
  }

  // ----- An independent description of the normal forms -----

  /** Some root rule of the rewrite step applies to `e`. */
  predicate RootReducible(e: Expression)
  {
    match e
    case BinaryOperation(operation, left, right) =>
      || left == IdentityElement(operation)
      || right == IdentityElement(operation)
      || (operation == Multiplication && (left == Constant(0.0) || right == Constant(0.0)))
      || (operation == Division && left == Constant(0.0))
      || (operation == Addition && left.Monomial? && right.Monomial?
          && left.variable == right.variable && left.power == right.power)
      || (operation == Multiplication && left.Monomial? && right.Constant?)
      || (operation == Multiplication && left.Constant? && right.Monomial?)
    case Function(function_kind, expression) => function_kind == Sine && expression == Constant(0.0)
    case _ => false
  }

  /** No root rule applies anywhere in the tree. */
  predicate Normal(e: Expression)
  {
    !RootReducible(e) &&
    match e
    case BinaryOperation(_, left, right) => Normal(left) && Normal(right)
    case Function(_, expression) => Normal(expression)
    case _ => true
  }

  /** The rewrite step fails exactly on the normal forms. */
  lemma {:induction false} IrreducibleIffNormal(e: Expression)
    ensures DoSimplifyExpression(e).None? <==> Normal(e)
  {
    match e
    case Constant(_) =>
    case NamedConstant(_) =>
    case Monomial(_, _, _) =>
    case BinaryOperation(operation, left, right) =>
      IrreducibleIffNormal(left);
      IrreducibleIffNormal(right);
      if !RootReducible(e) {
        assert DoSimplifyExpression(e) == SimplifyOperationOperands(operation, left, right);
      }
    case Function(function_kind, expression) =>
      IrreducibleIffNormal(expression);
      if !RootReducible(e) {
        assert DoSimplifyExpression(e) == SimplifyFunctionSubexpression(function_kind, expression);
      }
  }

  /** Simplification always ends in a normal form. */
  lemma SimplifyYieldsNormal(e: Expression)
    ensures Normal(SimplifyExpression(e))
  {
    IrreducibleIffNormal(SimplifyExpression(e));
  }

  /** Expressions already irreducible are returned unchanged, and only they are. */
  lemma FixpointIffIrreducible(e: Expression)
    ensures SimplifyExpression(e) == e <==> DoSimplifyExpression(e).None?
  {
  }

  /** Simplifying twice is simplifying once. */
  lemma SimplifyIdempotent(e: Expression)
    ensures SimplifyExpression(SimplifyExpression(e)) == SimplifyExpression(e)
  {
    FixpointIffIrreducible(SimplifyExpression(e));
  }

  /** A step that fires is followed by simplification of its result. */
  lemma SimplifyAfterStep(e: Expression)
    requires DoSimplifyExpression(e).Some?
    ensures SimplifyExpression(e) == SimplifyExpression(DoSimplifyExpression(e).value)
  {
  }

  // ----- Powers stay positive -----

  /** A rewrite step keeps every monomial power at least one. */
  lemma {:induction false} StepKeepsPositivePowers(e: Expression)
    requires PositivePowers(e)
    ensures DoSimplifyExpression(e).Some? ==> PositivePowers(DoSimplifyExpression(e).value)
  {
    match e
    case Constant(_) =>
    case NamedConstant(_) =>
    case Monomial(_, _, _) =>
    case BinaryOperation(operation, left, right) =>
      StepKeepsPositivePowers(left);
      StepKeepsPositivePowers(right);
      if !RootReducible(e) {
        assert DoSimplifyExpression(e) == SimplifyOperationOperands(operation, left, right);
      }
    case Function(function_kind, expression) =>
      StepKeepsPositivePowers(expression);
      if !RootReducible(e) {
        assert DoSimplifyExpression(e) == SimplifyFunctionSubexpression(function_kind, expression);
      }
  }

  /** Simplification keeps every monomial power at least one. */
  lemma {:induction false} SimplifyKeepsPositivePowers(e: Expression)
    requires PositivePowers(e)
    ensures PositivePowers(SimplifyExpression(e))
    decreases Size(e)
  {
    match DoSimplifyExpression(e)
    case None =>
    case Some(next) =>
      StepKeepsPositivePowers(e);
      SimplifyKeepsPositivePowers(next);
  }

  // ----- The individual rules -----

  /** A left operand equal to the identity element reduces to the right
      operand, before any other rule: `0 - x` and `1 / x` become `x`. */
  lemma LeftIdentityRule(operation: BinaryOperationType, right: Expression)
    ensures DoSimplifyExpression(BinaryOperation(operation, IdentityElement(operation), right)) == Some(right)
  {
  }

  /** The Division entry of the identity table at work: `1 / x` becomes `x`
      and `x / 1` becomes `x`. */
  lemma DivisionIdentityRules(x: Expression)
    ensures DoSimplifyExpression(BinaryOperation(Division, Constant(1.0), x)) == Some(x)
    ensures DoSimplifyExpression(BinaryOperation(Division, x, Constant(1.0))) == Some(x)
  {
  }

  /** A right operand equal to the identity element reduces to the left
      operand. When both operands are the identity, the left-identity rule
      fires first and gives the same tree, so the precedence between the two
      identity rules cannot be seen in the result. */
  lemma RightIdentityRule(operation: BinaryOperationType, left: Expression)
    ensures DoSimplifyExpression(BinaryOperation(operation, left, IdentityElement(operation))) == Some(left)
  {
  }

  /** A product with a zero on either side, and a quotient with a zero
      numerator, reduce to zero, whatever the other operand is. */
  lemma ZeroAbsorption(other: Expression)
    ensures DoSimplifyExpression(BinaryOperation(Multiplication, Constant(0.0), other)) == Some(Constant(0.0))
    ensures DoSimplifyExpression(BinaryOperation(Multiplication, other, Constant(0.0))) == Some(Constant(0.0))
    ensures DoSimplifyExpression(BinaryOperation(Division, Constant(0.0), other)) == Some(Constant(0.0))
  {
  }

  /** Two monomials in the same variable and power collect into one. */
  lemma LikeTermCollection(f1: real, f2: real, variable: Variable, power: Power)
    ensures DoSimplifyExpression(BinaryOperation(Addition, Monomial(f1, variable, power), Monomial(f2, variable, power)))
         == Some(Monomial(f1 + f2, variable, power))
  {
  }

  /** Monomials that differ in variable or power are not collected, and
      the sum is irreducible. */
  lemma UnlikeTermsIrreducible(f1: real, v1: Variable, p1: Power, f2: real, v2: Variable, p2: Power)
    requires v1 != v2 || p1 != p2
    ensures DoSimplifyExpression(BinaryOperation(Addition, Monomial(f1, v1, p1), Monomial(f2, v2, p2))).None?
  {
    var left, right := Monomial(f1, v1, p1), Monomial(f2, v2, p2);
    assert DoSimplifyExpression(BinaryOperation(Addition, left, right))
        == SimplifyOperationOperands(Addition, left, right);
  }

  /** A non-zero constant folds into a monomial's factor, in either order;
      a zero constant is absorbed first. */
  lemma ConstantFolding(c: real, factor: real, variable: Variable, power: Power)
    ensures c != 0.0 ==>
      DoSimplifyExpression(BinaryOperation(Multiplication, Constant(c), Monomial(factor, variable, power)))
        == Some(Monomial(factor * c, variable, power))
    ensures c != 0.0 ==>
      DoSimplifyExpression(BinaryOperation(Multiplication, Monomial(factor, variable, power), Constant(c)))
        == Some(Monomial(factor * c, variable, power))
    ensures c == 0.0 ==>
      DoSimplifyExpression(BinaryOperation(Multiplication, Constant(c), Monomial(factor, variable, power)))
        == Some(Constant(0.0))
  {
    var m := Monomial(factor, variable, power);
    if c == 1.0 {
      assert Monomial(factor * c, variable, power) == m;
      assert DoSimplifyExpression(BinaryOperation(Multiplication, m, Constant(c))) == Some(m);
      assert DoSimplifyExpression(BinaryOperation(Multiplication, Constant(c), m)) == Some(m);
    } else if c != 0.0 {
      var folded := SimplifyOperation(Multiplication, Constant(c), m);
      assert folded.Some? && folded.value.Monomial?;
      assert folded.value.factor == factor * c;
      assert folded.value == Monomial(factor * c, variable, power);
    }
  }

  /** `sin(0)` reduces to zero. */
  lemma SineOfZero()
    ensures DoSimplifyExpression(Function(Sine, Constant(0.0))) == Some(Constant(0.0))
  {
  }

  /** Any other function node reduces exactly when its argument does, and
      keeps the same function around the reduced argument. */
  lemma FunctionReduction(function_kind: Function, expression: Expression)
    requires !(function_kind == Sine && expression == Constant(0.0))
    ensures DoSimplifyExpression(Function(function_kind, expression)).Some?
        <==> DoSimplifyExpression(expression).Some?
    ensures DoSimplifyExpression(expression).Some? ==>
      DoSimplifyExpression(Function(function_kind, expression))
        == Some(Function(function_kind, DoSimplifyExpression(expression).value))
  {
    assert DoSimplifyExpression(Function(function_kind, expression))
        == SimplifyFunctionSubexpression(function_kind, expression);
  }

  /** When no root rule applies, the operation keeps its operator, takes
      each operand's reduction where there is one and the operand itself
      otherwise, and is irreducible only when neither operand reduces. */
  lemma OperandReduction(operation: BinaryOperationType, left: Expression, right: Expression)
    requires !RootReducible(BinaryOperation(operation, left, right))
    ensures DoSimplifyExpression(BinaryOperation(operation, left, right)).None?
        <==> DoSimplifyExpression(left).None? && DoSimplifyExpression(right).None?
    ensures DoSimplifyExpression(BinaryOperation(operation, left, right)).Some? ==>
      DoSimplifyExpression(BinaryOperation(operation, left, right)) == Some(BinaryOperation(operation,
        if DoSimplifyExpression(left).Some? then DoSimplifyExpression(left).value else left,
        if DoSimplifyExpression(right).Some? then DoSimplifyExpression(right).value else right))
  {
    assert DoSimplifyExpression(BinaryOperation(operation, left, right))
        == SimplifyOperationOperands(operation, left, right);
  }
}
