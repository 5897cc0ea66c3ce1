/** The numeric meaning of an expression, under given values for its
    variables, its named constants and the sine and cosine functions, and
    the proof that the simplifier keeps that meaning on trees built from
    sums and products. */
module Evaluation {
  import opened Wrappers
  import opened ExpressionModel
  import opened Simplifiable

  /** Values for everything a tree leaves open. */
  datatype Interpretation = Interpretation(
    variables: Variable -> real,
    constants: string -> real,
    sine: real -> real,
    cosine: real -> real)

  function Pow(x: real, n: nat): real
  {
    if n == 0 then 1.0 else x * Pow(x, n - 1)
  }

  /** No Division anywhere in the tree. */
  predicate DivisionFree(e: Expression)
  {
    match e
    case BinaryOperation(operation, left, right) =>
      operation != Division && DivisionFree(left) && DivisionFree(right)
    case Function(_, expression) => DivisionFree(expression)
    case _ => true
  }

  /** Only Addition and Multiplication anywhere in the tree. */
  predicate SumsAndProducts(e: Expression): (b: bool)
    ensures b ==> DivisionFree(e)
  {
    match e
    case BinaryOperation(operation, left, right) =>
      (operation == Addition || operation == Multiplication) && SumsAndProducts(left) && SumsAndProducts(right)
    case Function(_, expression) => SumsAndProducts(expression)
    case _ => true
  }

  function Eval(e: Expression, i: Interpretation): real
    requires DivisionFree(e)
  {
    match e
    case Constant(c) => c
    case NamedConstant(name) => i.constants(name)
    case Monomial(factor, variable, power) => factor * Pow(i.variables(variable), power)
    case BinaryOperation(operation, left, right) =>
      (match operation
       case Addition => Eval(left, i) + Eval(right, i)
       case Substraction => Eval(left, i) - Eval(right, i)
       case Multiplication => Eval(left, i) * Eval(right, i))
    case Function(Sine, expression) => i.sine(Eval(expression, i))
    case Function(Cosine, expression) => i.cosine(Eval(expression, i))
  }

  /** The identity element is neutral on the right of Addition, Substraction
      and Multiplication, and on the left of Addition and Multiplication only. */
  lemma IdentityElementIsNeutral(operation: BinaryOperationType, x: Expression, i: Interpretation)
    requires operation != Division && DivisionFree(x)
    ensures Eval(BinaryOperation(operation, x, IdentityElement(operation)), i) == Eval(x, i)
    ensures operation != Substraction ==>
      Eval(BinaryOperation(operation, IdentityElement(operation), x), i) == Eval(x, i)
  {
  }

  /** One rewrite step on a tree of sums and products keeps its value,
      given that the interpretation has `sin(0) = 0`, and keeps it a tree
      of sums and products. */
  lemma {:induction false} StepPreservesValue(e: Expression, i: Interpretation)
    requires SumsAndProducts(e)
    requires i.sine(0.0) == 0.0
    ensures DoSimplifyExpression(e).Some? ==>
      && SumsAndProducts(DoSimplifyExpression(e).value)
      && DivisionFree(DoSimplifyExpression(e).value)
      && Eval(DoSimplifyExpression(e).value, i) == Eval(e, i)
  {
    match e
    case Constant(_) =>
    case NamedConstant(_) =>
    case Monomial(_, _, _) =>
    case BinaryOperation(operation, left, right) =>
      if left == IdentityElement(operation) {
      } else if right == IdentityElement(operation) {
      } else if operation == Multiplication && (left == Constant(0.0) || right == Constant(0.0)) {
      } else if operation == Addition && left.Monomial? && right.Monomial?
                && left.variable == right.variable && left.power == right.power {
        var p := Pow(i.variables(left.variable), left.power);
        assert left.factor * p + right.factor * p == (left.factor + right.factor) * p;
      } else if operation == Multiplication && left.Monomial? && right.Constant? {
        var p := Pow(i.variables(left.variable), left.power);
        assert (left.factor * p) * right.value == (left.factor * right.value) * p;
      } else if operation == Multiplication && left.Constant? && right.Monomial? {
        var p := Pow(i.variables(right.variable), right.power);
        assert left.value * (right.factor * p) == (right.factor * left.value) * p;
      } else {
        assert DoSimplifyExpression(e) == SimplifyOperationOperands(operation, left, right);
        StepPreservesValue(left, i);
        StepPreservesValue(right, i);
      }
    case Function(function_kind, expression) =>
      if function_kind == Sine && expression == Constant(0.0) {
      } else {
        assert DoSimplifyExpression(e) == SimplifyFunctionSubexpression(function_kind, expression);
        StepPreservesValue(expression, i);
      }
  }

  /** Simplification keeps the value of every tree of sums and products. */
  lemma {:induction false} SimplifyPreservesValue(e: Expression, i: Interpretation)
    requires SumsAndProducts(e)
    requires i.sine(0.0) == 0.0
    ensures DivisionFree(SimplifyExpression(e))
    ensures Eval(SimplifyExpression(e), i) == Eval(e, i)
    decreases Size(e)
  {
    match DoSimplifyExpression(e)
    case None =>
    case Some(next) =>
      StepPreservesValue(e, i);
      SimplifyPreservesValue(next, i);
  }

  /** The left-identity rule also fires for Substraction: `0 - x` simplifies
      to `x`, which has another value wherever `x` is not zero. */
  lemma SubtractionFromZeroChangesValue()
    ensures var x := Monomial(1.0, 'x', 1);
      && SimplifyExpression(BinaryOperation(Substraction, Constant(0.0), x)) == x
      && var i := Interpretation(_ => 1.0, _ => 0.0, _ => 0.0, _ => 1.0);
         Eval(BinaryOperation(Substraction, Constant(0.0), x), i) == -1.0 && Eval(x, i) == 1.0
  {
    var x := Monomial(1.0, 'x', 1);
    LeftIdentityRule(Substraction, x);
    SimplifyAfterStep(BinaryOperation(Substraction, Constant(0.0), x));
    FixpointIffIrreducible(x);
  }
}
