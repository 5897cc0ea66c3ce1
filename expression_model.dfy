/** The expression tree shared by the simplifier and the differentiator:
    constants, named constants, one-variable monomials, binary operations
    and the two trigonometric functions. */
module ExpressionModel {

  /** A variable is a single character. */
  type Variable = char

  /** Monomial powers are `u8` values. */
  type Power = p: int | 0 <= p < 256

  datatype BinaryOperationType = Addition | Substraction | Multiplication | Division

  datatype Function = Sine | Cosine

  /** Rust factors are `f64`; here they are exact reals. */
  datatype Expression =
    | Constant(value: real)
    | NamedConstant(name: string)
    | Monomial(factor: real, variable: Variable, power: Power)
    | BinaryOperation(operation: BinaryOperationType, left_value: Expression, right_value: Expression)
    | Function(func: Function, expression: Expression)

  /** The constant that each operator leaves its other operand unchanged with
      (on the right for all four, on both sides for Addition and Multiplication). */
  function IdentityElement(operation: BinaryOperationType): (r: Expression)
    ensures r.Constant?
  {
    match operation
    case Addition | Substraction => Constant(0.0)
    case Multiplication | Division => Constant(1.0)
  }

  /** The free variables of an expression. */
  function Variables(e: Expression): set<Variable>
  {
    match e
    case Constant(_) => {}
    case NamedConstant(_) => {}
    case Monomial(_, variable, _) => {variable}
    case BinaryOperation(_, left, right) => Variables(left) + Variables(right)
    case Function(_, argument) => Variables(argument)
  }

  /** Every monomial in the tree has a power of at least one, as every
      monomial the engine itself builds does. */
  predicate PositivePowers(e: Expression)
  {
    match e
    case Monomial(_, _, power) => power >= 1
    case BinaryOperation(_, left, right) => PositivePowers(left) && PositivePowers(right)
    case Function(_, argument) => PositivePowers(argument)
    case _ => true
  }

  /** The number of nodes of an expression tree. */
  function Size(e: Expression): (n: nat)
    ensures n >= 1
  {
    match e
    case Constant(_) => 1
    case NamedConstant(_) => 1
    case Monomial(_, _, _) => 1
    case BinaryOperation(_, left, right) => 1 + Size(left) + Size(right)
    case Function(_, argument) => 1 + Size(argument)
  }
}
