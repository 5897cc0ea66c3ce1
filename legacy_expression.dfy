/** The earlier, combined iteration of the expression module: a flat
    `Operation` variant, no named constants, differentiation of sums and
    differences only, and a simplifier that looks at the root once. It is
    related to the mature model through `Embed`. */
module LegacyExpression {
  import opened Wrappers
  import M = ExpressionModel
  import S = Simplifiable
  import D = Derivable

  datatype BinaryOperation = Addition | Substraction | Multiplication | Division

  datatype Function = Sine | Cosine

  datatype Expression =
    | Constant(value: real)
    | Monomial(factor: real, variable: M.Variable, power: M.Power)
    | Operation(operation: BinaryOperation, left_value: Expression, right_value: Expression)
    | Function(func: Function, expression: Expression)

  /** The cases that abort with a panic in this iteration. */
  datatype Unsupported =
    | ProductOrQuotientRule   // Multiplication and Division have no rule
    | FunctionRule            // function nodes have no rule
    | PowerUnderflow          // `power - 1` on a u8 power of 0

  function EmbedOperation(operation: BinaryOperation): M.BinaryOperationType
  {
    match operation
    case Addition => M.Addition
    case Substraction => M.Substraction
    case Multiplication => M.Multiplication
    case Division => M.Division
  }

  function EmbedFunction(function_kind: Function): M.Function
  {
    match function_kind
    case Sine => M.Sine
    case Cosine => M.Cosine
  }

  /** The same tree in the mature representation. */
  function Embed(e: Expression): M.Expression
  {
    match e
    case Constant(c) => M.Expression.Constant(c)
    case Monomial(factor, variable, power) => M.Expression.Monomial(factor, variable, power)
    case Operation(operation, left, right) =>
      M.Expression.BinaryOperation(EmbedOperation(operation), Embed(left), Embed(right))
    case Function(function_kind, expression) =>
      M.Expression.Function(EmbedFunction(function_kind), Embed(expression))
  }

  /** The identity table, which the mature simplifier shares. */
  function IdentityElement(operation: BinaryOperation): (r: Expression)
    ensures Embed(r) == M.IdentityElement(EmbedOperation(operation))
  {
    match operation
    case Addition | Substraction => Constant(0.0)
    case Multiplication | Division => Constant(1.0)
  }

  /** The power rule, the same as the mature one. */
  function DeriveMonomial(derivation_variable: M.Variable, factor: real, variable: M.Variable, power: M.Power)
    : (r: Result<Expression, Unsupported>)
    ensures r.Ok? <==> D.DeriveMonomial(derivation_variable, factor, variable, power).Ok?
    ensures r.Ok? ==> Embed(r.value) == D.DeriveMonomial(derivation_variable, factor, variable, power).value
  {
    if variable == derivation_variable then
      if power == 1 then Ok(Constant(factor))
      else if power == 0 then Err(PowerUnderflow)
      else Ok(Monomial(factor * (power as real), variable, power - 1))
    else
      Ok(Constant(0.0))
  }

  /** Linearity for Addition and Substraction; the other operators fail
      before their operands are looked at. */
  function DeriveOperation(derivation_variable: M.Variable, operation: BinaryOperation,
                           left: Expression, right: Expression): (r: Result<Expression, Unsupported>)
    ensures operation == Multiplication || operation == Division ==> r == Err(ProductOrQuotientRule)
    ensures r.Ok? ==> M.Variables(Embed(r.value)) <= M.Variables(Embed(left)) + M.Variables(Embed(right))
    decreases Operation(operation, left, right), 0
  {
    match operation
    case Addition | Substraction =>
      var dl :- Derive(left, derivation_variable);
      var dr :- Derive(right, derivation_variable);
      Ok(Operation(operation, dl, dr))
    case Multiplication | Division => Err(ProductOrQuotientRule)
  }

  /** The derivative of `e`, with one root-only simplification. It never
      mentions a variable that `e` does not. */
  function Derive(e: Expression, derivation_variable: M.Variable): (r: Result<Expression, Unsupported>)
    ensures r.Ok? ==> M.Variables(Embed(r.value)) <= M.Variables(Embed(e))
    decreases e, 1
  {
    match e
    case Constant(_) => Ok(Constant(0.0))
    case Monomial(factor, variable, power) =>
      var d :- DeriveMonomial(derivation_variable, factor, variable, power);
      Ok(SimplifyExpression(d))
    case Operation(operation, left, right) =>
      var d :- DeriveOperation(derivation_variable, operation, left, right);
      Ok(SimplifyExpression(d))
    case Function(_, _) => Err(FunctionRule)
  }

  /** `sin(0)` becomes zero; every other function node is rebuilt as it is. */
  function SimplifyFunction(function_kind: Function, expression: Expression): (r: Expression)
    ensures r == Function(function_kind, expression) || r == Constant(0.0)
    ensures r.Constant? <==> (function_kind == Sine && expression == Constant(0.0))
  {
    match function_kind
    case Cosine => Function(function_kind, expression)
    case Sine =>
      if expression == Constant(0.0) then Constant(0.0)
      else Function(function_kind, expression)
  }

  /** The identity rules at the root only: a left identity gives the right
      operand, then a right identity gives the left operand, otherwise the
      same operation is rebuilt. The operands are never simplified. */
  function SimplifyOperation(operation: BinaryOperation, left: Expression, right: Expression): (r: Expression)
    ensures r == right || r == left || r == Operation(operation, left, right)
  {
    if left == IdentityElement(operation) then right
    else if right == IdentityElement(operation) then left
    else Operation(operation, left, right)
  }

  /** One root-only simplification. Whenever it changes the tree, the
      mature rewrite step makes the same change. */
  function SimplifyExpression(e: Expression): (r: Expression)
    ensures M.Size(Embed(r)) <= M.Size(Embed(e))
    ensures M.Variables(Embed(r)) <= M.Variables(Embed(e))
    ensures r != e ==> S.DoSimplifyExpression(Embed(e)) == Some(Embed(r))
  {
    match e
    case Function(function_kind, expression) => SimplifyFunction(function_kind, expression)
    case Operation(operation, left, right) => SimplifyOperation(operation, left, right)
    case _ => e
  }

  // ----- Properties of this iteration -----

  /** The engine has a rule for every node it reaches. */
  predicate Differentiable(e: Expression, derivation_variable: M.Variable)
  {
    match e
    case Constant(_) => true
    case Monomial(_, variable, power) => variable != derivation_variable || power != 0
    case Operation(operation, left, right) =>
      (operation == Addition || operation == Substraction)
      && Differentiable(left, derivation_variable) && Differentiable(right, derivation_variable)
    case Function(_, _) => false
  }

  /** Differentiation fails exactly when the tree needs a rule this iteration lacks. */
  lemma {:induction false} DeriveSucceedsIff(e: Expression, derivation_variable: M.Variable)
    ensures Derive(e, derivation_variable).Ok? <==> Differentiable(e, derivation_variable)
  {
    match e
    case Constant(_) =>
    case Monomial(_, _, _) =>
    case Operation(operation, left, right) =>
      DeriveSucceedsIff(left, derivation_variable);
      DeriveSucceedsIff(right, derivation_variable);
    case Function(_, _) =>
  }

  /** Constants derive to zero; function nodes are unsupported. */
  lemma ConstantAndFunctionRules(c: real, function_kind: Function, expression: Expression, derivation_variable: M.Variable)
    ensures Derive(Constant(c), derivation_variable) == Ok(Constant(0.0))
    ensures Derive(Function(function_kind, expression), derivation_variable) == Err(FunctionRule)
  {
  }

  /** The power rule through `Derive`. */
  lemma PowerRule(factor: real, variable: M.Variable, power: M.Power, derivation_variable: M.Variable)
    ensures variable != derivation_variable ==>
      Derive(Monomial(factor, variable, power), derivation_variable) == Ok(Constant(0.0))
    ensures variable == derivation_variable && power == 1 ==>
      Derive(Monomial(factor, variable, power), derivation_variable) == Ok(Constant(factor))
    ensures variable == derivation_variable && power >= 2 ==>
      Derive(Monomial(factor, variable, power), derivation_variable)
        == Ok(Monomial(factor * (power as real), variable, power - 1))
    ensures variable == derivation_variable && power == 0 ==>
      Derive(Monomial(factor, variable, power), derivation_variable) == Err(PowerUnderflow)
  {
  }

  /** Sums and differences derive to the same operator over the two
      derivatives, simplified at the root; products and quotients fail. */
  lemma OperationRules(operation: BinaryOperation, left: Expression, right: Expression, derivation_variable: M.Variable)
    ensures (&& (operation == Addition || operation == Substraction)
             && Derive(left, derivation_variable).Ok? && Derive(right, derivation_variable).Ok?) ==>
      Derive(Operation(operation, left, right), derivation_variable)
        == Ok(SimplifyOperation(operation, Derive(left, derivation_variable).value, Derive(right, derivation_variable).value))
    ensures operation == Multiplication || operation == Division ==>
      Derive(Operation(operation, left, right), derivation_variable) == Err(ProductOrQuotientRule)
  {
  }

  /** Constants and monomials are returned unchanged; `sin(0)` becomes zero;
      other function nodes are unchanged. */
  lemma SimplifyLeaves(c: real, factor: real, variable: M.Variable, power: M.Power, function_kind: Function, expression: Expression)
    ensures SimplifyExpression(Constant(c)) == Constant(c)
    ensures SimplifyExpression(Monomial(factor, variable, power)) == Monomial(factor, variable, power)
    ensures SimplifyExpression(Function(Sine, Constant(0.0))) == Constant(0.0)
    ensures !(function_kind == Sine && expression == Constant(0.0)) ==>
      SimplifyExpression(Function(function_kind, expression)) == Function(function_kind, expression)
  {
  }

  /** Identity precedence at the root: the left identity is tested first. */
  lemma SimplifyOperationPrecedence(operation: BinaryOperation, left: Expression, right: Expression)
    ensures left == IdentityElement(operation) ==> SimplifyOperation(operation, left, right) == right
    ensures left != IdentityElement(operation) && right == IdentityElement(operation) ==>
      SimplifyOperation(operation, left, right) == left
    ensures left != IdentityElement(operation) && right != IdentityElement(operation) ==>
      SimplifyOperation(operation, left, right) == Operation(operation, left, right)
  {
  }

  /** Because the operands are not simplified, simplifying once more can
      still change the result: this simplifier is not idempotent. */
  lemma SimplifyNotIdempotent()
    ensures var e := Operation(Addition, Constant(0.0), Operation(Addition, Constant(0.0), Monomial(1.0, 'x', 1)));
      && SimplifyExpression(e) == Operation(Addition, Constant(0.0), Monomial(1.0, 'x', 1))
      && SimplifyExpression(SimplifyExpression(e)) == Monomial(1.0, 'x', 1)
  {
  }

  /** A differentiable expression in which the variable does not occur
      derives to zero. */
  lemma {:induction false} AbsentVariableDerivesToZero(e: Expression, derivation_variable: M.Variable)
    requires Differentiable(e, derivation_variable)
    requires derivation_variable !in M.Variables(Embed(e))
    ensures Derive(e, derivation_variable) == Ok(Constant(0.0))
  {
    match e
    case Constant(_) =>
    case Monomial(_, _, _) =>
    case Operation(operation, left, right) =>
      AbsentVariableDerivesToZero(left, derivation_variable);
      AbsentVariableDerivesToZero(right, derivation_variable);
    case Function(_, _) =>
  }
}
