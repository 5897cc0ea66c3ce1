/** The mature differentiator: power rule, linearity for sums and
    differences, product rule, a restricted rule for sine. Results of the
    monomial and binary-operation rules pass through the simplifier. */
module Derivable {
  import opened Wrappers
  import opened ExpressionModel
  import opened Simplifiable

  /** The cases that abort with a panic in the source. */
  datatype Unsupported =
    | QuotientRule      // no rule for Division
    | CosineRule        // no rule for Cosine of an argument that holds the variable
    | PowerUnderflow    // `power - 1` on a u8 power of 0

  /** The power rule on one monomial. */
  function DeriveMonomial(derivation_variable: Variable, factor: real, variable: Variable, power: Power)
    : (r: Result<Expression, Unsupported>)
    ensures variable != derivation_variable ==> r == Ok(Constant(0.0))
    ensures r.Err? <==> variable == derivation_variable && power == 0
    ensures r.Ok? ==> Variables(r.value) <= {variable}
  {
    if variable == derivation_variable then
      if power == 1 then Ok(Constant(factor))
      else if power == 0 then Err(PowerUnderflow)
      else Ok(Monomial(factor * (power as real), variable, power - 1))
    else
      Ok(Constant(0.0))
  }

  /** Linearity for Addition and Substraction, the product rule for
      Multiplication; the raw result, before simplification. */
  function DeriveOperation(derivation_variable: Variable, operation: BinaryOperationType,
                           left: Expression, right: Expression): (r: Result<Expression, Unsupported>)
    ensures operation == Division ==> r == Err(QuotientRule)
    ensures r.Ok? ==> Variables(r.value) <= Variables(left) + Variables(right)
    decreases Size(left) + Size(right) + 1, 0
  {
    match operation
    case Addition | Substraction =>
      var dl :- Derive(left, derivation_variable);
      var dr :- Derive(right, derivation_variable);
      Ok(BinaryOperation(operation, dl, dr))
    case Multiplication =>
      var dl :- Derive(left, derivation_variable);
      var dr :- Derive(right, derivation_variable);
      Ok(BinaryOperation(Addition,
        BinaryOperation(Multiplication, dl, right),
        BinaryOperation(Multiplication, dr, left)))
    case Division => Err(QuotientRule)
  }

  /** Sine derives to Cosine of the same argument when the variable is free
      in it; a function of an argument without the variable derives to zero. */
  function DeriveFunction(function_kind: Function, expression: Expression, derivation_variable: Variable)
    : (r: Result<Expression, Unsupported>)
    ensures derivation_variable !in Variables(expression) ==> r == Ok(Constant(0.0))
    ensures r.Ok? ==> Variables(r.value) <= Variables(expression)
  {
    if derivation_variable !in Variables(expression) then Ok(Constant(0.0))
    else
      match function_kind
      case Cosine => Err(CosineRule)
      case Sine => Ok(Function(Cosine, expression))
  }

  /** The derivative of `e` with respect to `derivation_variable`. It never
      mentions a variable that `e` does not, and for monomials and binary
      operations it is already irreducible for the simplifier. */
  function Derive(e: Expression, derivation_variable: Variable): (r: Result<Expression, Unsupported>)
    ensures r.Ok? ==> Variables(r.value) <= Variables(e)
    ensures r.Ok? && (e.Monomial? || e.BinaryOperation?) ==> DoSimplifyExpression(r.value).None?
    decreases Size(e), 1
  {
    match e
    case Constant(_) => Ok(Constant(0.0))
    case NamedConstant(_) => Ok(Constant(0.0))
    case Monomial(factor, variable, power) =>
      var d :- DeriveMonomial(derivation_variable, factor, variable, power);
      Ok(SimplifyExpression(d))
    case BinaryOperation(operation, left, right) =>
      var d :- DeriveOperation(derivation_variable, operation, left, right);
      Ok(SimplifyExpression(d))
    case Function(function_kind, expression) =>
      DeriveFunction(function_kind, expression, derivation_variable)
  }

  // ----- When differentiation succeeds -----

  /** The engine has a rule for every node it reaches: no Division, no
      Cosine of an argument holding the variable, no zero power in the
      variable. Function arguments are not descended into. */
  predicate Differentiable(e: Expression, derivation_variable: Variable)
  {
    match e
    case Constant(_) => true
    case NamedConstant(_) => true
    case Monomial(_, variable, power) => variable != derivation_variable || power != 0
    case BinaryOperation(operation, left, right) =>
      operation != Division && Differentiable(left, derivation_variable) && Differentiable(right, derivation_variable)
    case Function(function_kind, expression) =>
      derivation_variable !in Variables(expression) || function_kind == Sine
  }

  /** Differentiation fails exactly when the tree needs a rule the engine lacks. */
  lemma {:induction false} DeriveSucceedsIff(e: Expression, derivation_variable: Variable)
    ensures Derive(e, derivation_variable).Ok? <==> Differentiable(e, derivation_variable)
  {
    match e
    case Constant(_) =>
    case NamedConstant(_) =>
    case Monomial(_, _, _) =>
    case BinaryOperation(operation, left, right) =>
      DeriveSucceedsIff(left, derivation_variable);
      DeriveSucceedsIff(right, derivation_variable);
    case Function(_, _) =>
  }

  // ----- The rules, one by one -----

  /** Constants and named constants derive to zero for every variable. */
  lemma ConstantsDeriveToZero(c: real, name: string, derivation_variable: Variable)
    ensures Derive(Constant(c), derivation_variable) == Ok(Constant(0.0))
    ensures Derive(NamedConstant(name), derivation_variable) == Ok(Constant(0.0))
  {
  }

  /** The power rule: zero in another variable, the factor at power one,
      otherwise the factor times the power at one power less. */
  lemma PowerRule(factor: real, variable: Variable, power: Power, derivation_variable: Variable)
    ensures variable != derivation_variable ==>
      Derive(Monomial(factor, variable, power), derivation_variable) == Ok(Constant(0.0))
    ensures variable == derivation_variable && power == 1 ==>
      Derive(Monomial(factor, variable, power), derivation_variable) == Ok(Constant(factor))
    ensures variable == derivation_variable && power >= 2 ==>
      Derive(Monomial(factor, variable, power), derivation_variable)
        == Ok(Monomial(factor * (power as real), variable, power - 1))
    ensures variable == derivation_variable && power == 0 ==>
      Derive(Monomial(factor, variable, power), derivation_variable) == Err(PowerUnderflow)
  {
    var d := DeriveMonomial(derivation_variable, factor, variable, power);
    if d.Ok? {
      assert DoSimplifyExpression(d.value).None?;
      FixpointIffIrreducible(d.value);
    }
  }

  /** Sums and differences derive to the same operator over the two
      derivatives, simplified. */
  lemma SumRule(operation: BinaryOperationType, left: Expression, right: Expression, derivation_variable: Variable)
    requires operation == Addition || operation == Substraction
    requires Derive(left, derivation_variable).Ok? && Derive(right, derivation_variable).Ok?
    ensures Derive(BinaryOperation(operation, left, right), derivation_variable)
         == Ok(SimplifyExpression(BinaryOperation(operation,
              Derive(left, derivation_variable).value, Derive(right, derivation_variable).value)))
  {
  }

  /** Products derive by the product rule, the operands that are not
      differentiated copied unchanged, and the whole simplified. */
  lemma ProductRule(left: Expression, right: Expression, derivation_variable: Variable)
    requires Derive(left, derivation_variable).Ok? && Derive(right, derivation_variable).Ok?
    ensures Derive(BinaryOperation(Multiplication, left, right), derivation_variable)
         == Ok(SimplifyExpression(BinaryOperation(Addition,
              BinaryOperation(Multiplication, Derive(left, derivation_variable).value, right),
              BinaryOperation(Multiplication, Derive(right, derivation_variable).value, left))))
  {
  }

  /** Sine: zero when the variable is not free in the argument, otherwise
      Cosine of the same argument, with no inner-derivative factor and no
      simplification. */
  lemma SineRule(expression: Expression, derivation_variable: Variable)
    ensures derivation_variable !in Variables(expression) ==>
      Derive(Function(Sine, expression), derivation_variable) == Ok(Constant(0.0))
    ensures derivation_variable in Variables(expression) ==>
      Derive(Function(Sine, expression), derivation_variable) == Ok(Function(Cosine, expression))
  {
  }

  /** Division, and Cosine of an argument holding the variable, fail. */
  lemma UnsupportedRules(left: Expression, right: Expression, expression: Expression, derivation_variable: Variable)
    ensures Derive(BinaryOperation(Division, left, right), derivation_variable) == Err(QuotientRule)
    ensures derivation_variable in Variables(expression) ==>
      Derive(Function(Cosine, expression), derivation_variable) == Err(CosineRule)
  {
  }

  /** For monomials and binary operations the derivative is a fixpoint of the simplifier. */
  lemma DerivativeIsSimplified(e: Expression, derivation_variable: Variable)
    requires e.Monomial? || e.BinaryOperation?
    requires Derive(e, derivation_variable).Ok?
    ensures SimplifyExpression(Derive(e, derivation_variable).value) == Derive(e, derivation_variable).value
  {
    FixpointIffIrreducible(Derive(e, derivation_variable).value);
  }

  /** On a tree whose monomial powers are all at least one, differentiation
      never meets the zero-power underflow, and its result keeps all powers
      at least one. */
  lemma {:induction false} DeriveKeepsPositivePowers(e: Expression, derivation_variable: Variable)
    requires PositivePowers(e)
    ensures Derive(e, derivation_variable) != Err(PowerUnderflow)
    ensures Derive(e, derivation_variable).Ok? ==> PositivePowers(Derive(e, derivation_variable).value)
  {
    match e
    case Constant(_) =>
    case NamedConstant(_) =>
    case Monomial(factor, variable, power) =>
      var d := DeriveMonomial(derivation_variable, factor, variable, power);
      assert d.Ok? && PositivePowers(d.value);
      SimplifyKeepsPositivePowers(d.value);
    case BinaryOperation(operation, left, right) =>
      DeriveKeepsPositivePowers(left, derivation_variable);
      DeriveKeepsPositivePowers(right, derivation_variable);
      var d := DeriveOperation(derivation_variable, operation, left, right);
      if d.Ok? {
        SimplifyKeepsPositivePowers(d.value);
      }
    case Function(_, _) =>
  }

  /** Simplifying `0 op 0` for Addition or Substraction gives zero. */
  lemma SimplifyZeroSum(operation: BinaryOperationType)
    requires operation == Addition || operation == Substraction
    ensures SimplifyExpression(BinaryOperation(operation, Constant(0.0), Constant(0.0))) == Constant(0.0)
  {
    var zero := Constant(0.0);
    LeftIdentityRule(operation, zero);
    SimplifyAfterStep(BinaryOperation(operation, zero, zero));
    FixpointIffIrreducible(zero);
  }

  /** Simplifying the product rule's raw result with both derivatives zero gives zero. */
  lemma SimplifyZeroProductRule(left: Expression, right: Expression)
    ensures SimplifyExpression(BinaryOperation(Addition,
              BinaryOperation(Multiplication, Constant(0.0), right),
              BinaryOperation(Multiplication, Constant(0.0), left))) == Constant(0.0)
  {
    var zero := Constant(0.0);
    var a, b := BinaryOperation(Multiplication, zero, right), BinaryOperation(Multiplication, zero, left);
    ZeroAbsorption(right);
    ZeroAbsorption(left);
    OperandReduction(Addition, a, b);
    assert DoSimplifyExpression(BinaryOperation(Addition, a, b)) == Some(BinaryOperation(Addition, zero, zero));
    SimplifyAfterStep(BinaryOperation(Addition, a, b));
    SimplifyZeroSum(Addition);
  }

  /** A differentiable expression in which the variable does not occur
      derives to zero. */
  lemma {:induction false} AbsentVariableDerivesToZero(e: Expression, derivation_variable: Variable)
    requires Differentiable(e, derivation_variable)
    requires derivation_variable !in Variables(e)
    ensures Derive(e, derivation_variable) == Ok(Constant(0.0))
  {
    match e
    case Constant(_) =>
    case NamedConstant(_) =>
    case Monomial(_, _, _) =>
      FixpointIffIrreducible(Constant(0.0));
    case BinaryOperation(operation, left, right) =>
      AbsentVariableDerivesToZero(left, derivation_variable);
      AbsentVariableDerivesToZero(right, derivation_variable);
      if operation == Multiplication {
        SimplifyZeroProductRule(left, right);
      } else {
        SimplifyZeroSum(operation);
      }
    case Function(_, _) =>
  }
}
