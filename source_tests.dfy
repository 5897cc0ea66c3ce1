/** The unit tests of the simplifier, the differentiator, the legacy module
    and the torus embedding, stated as lemmas about the model. */
module SourceTests {
  import opened Wrappers
  import opened ExpressionModel
  import opened Simplifiable
  import opened Derivable
  import L = LegacyExpression
  import opened SurfaceModel

  /** Leaves and irreducible function nodes are fixpoints; `sin(0)`, the
      identities and the zero product reduce. */
  lemma SimplifyExpressionCases()
    ensures SimplifyExpression(Constant(5.0)) == Constant(5.0)
    ensures SimplifyExpression(Monomial(5.0, 'x', 2)) == Monomial(5.0, 'x', 2)
    ensures SimplifyExpression(Function(Cosine, Constant(5.0))) == Function(Cosine, Constant(5.0))
    ensures SimplifyExpression(Function(Sine, Constant(0.0))) == Constant(0.0)
    ensures SimplifyExpression(BinaryOperation(Addition, Constant(5.0), Constant(0.0))) == Constant(5.0)
    ensures SimplifyExpression(BinaryOperation(Multiplication, Constant(5.0), Constant(1.0))) == Constant(5.0)
    ensures SimplifyExpression(BinaryOperation(Multiplication, Constant(5.0), Constant(0.0))) == Constant(0.0)
  {
    var five, zero := Constant(5.0), Constant(0.0);
    FixpointIffIrreducible(five);
    FixpointIffIrreducible(zero);
    FixpointIffIrreducible(Monomial(5.0, 'x', 2));
    FunctionReduction(Cosine, five);
    FixpointIffIrreducible(Function(Cosine, five));
    SimplifyAfterStep(Function(Sine, zero));
    RightIdentityRule(Addition, five);
    SimplifyAfterStep(BinaryOperation(Addition, five, zero));
    RightIdentityRule(Multiplication, five);
    SimplifyAfterStep(BinaryOperation(Multiplication, five, Constant(1.0)));
    ZeroAbsorption(five);
    SimplifyAfterStep(BinaryOperation(Multiplication, five, zero));
  }

  lemma SimplifyLikeTerms()
    ensures SimplifyExpression(BinaryOperation(Addition, Monomial(5.0, 'x', 1), Monomial(3.0, 'x', 1)))
         == Monomial(8.0, 'x', 1)
  {
    LikeTermCollection(5.0, 3.0, 'x', 1);
    SimplifyAfterStep(BinaryOperation(Addition, Monomial(5.0, 'x', 1), Monomial(3.0, 'x', 1)));
    FixpointIffIrreducible(Monomial(8.0, 'x', 1));
  }

  lemma SimplifyConstantTimesMonomial()
    ensures SimplifyExpression(BinaryOperation(Multiplication, Constant(5.0), Monomial(3.0, 'x', 2)))
         == Monomial(15.0, 'x', 2)
    ensures SimplifyExpression(BinaryOperation(Multiplication, Monomial(3.0, 'x', 2), Constant(5.0)))
         == Monomial(15.0, 'x', 2)
  {
    ConstantFolding(5.0, 3.0, 'x', 2);
    SimplifyAfterStep(BinaryOperation(Multiplication, Constant(5.0), Monomial(3.0, 'x', 2)));
    SimplifyAfterStep(BinaryOperation(Multiplication, Monomial(3.0, 'x', 2), Constant(5.0)));
    FixpointIffIrreducible(Monomial(15.0, 'x', 2));
  }

  lemma DeriveConstantsAndMonomials()
    ensures Derive(Constant(5.0), 'x') == Ok(Constant(0.0))
    ensures Derive(NamedConstant("pi"), 'x') == Ok(Constant(0.0))
    ensures Derive(Monomial(5.0, 'x', 1), 'y') == Ok(Constant(0.0))
    ensures Derive(Monomial(5.0, 'x', 1), 'x') == Ok(Constant(5.0))
    ensures Derive(Monomial(3.0, 'x', 2), 'y') == Ok(Constant(0.0))
    ensures Derive(Monomial(3.0, 'x', 2), 'x') == Ok(Monomial(6.0, 'x', 1))
    ensures Derive(Monomial(5.0, 'x', 3), 'y') == Ok(Constant(0.0))
    ensures Derive(Monomial(5.0, 'x', 3), 'x') == Ok(Monomial(15.0, 'x', 2))
  {
    ConstantsDeriveToZero(5.0, "pi", 'x');
    PowerRule(5.0, 'x', 1, 'y');
    PowerRule(5.0, 'x', 1, 'x');
    PowerRule(3.0, 'x', 2, 'y');
    PowerRule(3.0, 'x', 2, 'x');
    PowerRule(5.0, 'x', 3, 'y');
    PowerRule(5.0, 'x', 3, 'x');
  }

  lemma DeriveSum()
    ensures var sum := BinaryOperation(Addition, Monomial(5.0, 'x', 1), Monomial(3.0, 'x', 2));
      && Derive(sum, 'y') == Ok(Constant(0.0))
      && Derive(sum, 'x') == Ok(BinaryOperation(Addition, Constant(5.0), Monomial(6.0, 'x', 1)))
  {
    var sum := BinaryOperation(Addition, Monomial(5.0, 'x', 1), Monomial(3.0, 'x', 2));
    AbsentVariableDerivesToZero(sum, 'y');
    PowerRule(5.0, 'x', 1, 'x');
    PowerRule(3.0, 'x', 2, 'x');
    SumRule(Addition, Monomial(5.0, 'x', 1), Monomial(3.0, 'x', 2), 'x');
    var raw := BinaryOperation(Addition, Constant(5.0), Monomial(6.0, 'x', 1));
    OperandReduction(Addition, Constant(5.0), Monomial(6.0, 'x', 1));
    FixpointIffIrreducible(raw);
  }

  /** `d/dx((5x)(3y^2)) = 15y^2`. */
  lemma DeriveProductByX()
    ensures Derive(BinaryOperation(Multiplication, Monomial(5.0, 'x', 1), Monomial(3.0, 'y', 2)), 'x')
         == Ok(Monomial(15.0, 'y', 2))
  {
    var left, right, zero := Monomial(5.0, 'x', 1), Monomial(3.0, 'y', 2), Constant(0.0);
    PowerRule(5.0, 'x', 1, 'x');
    PowerRule(3.0, 'y', 2, 'x');
    ProductRule(left, right, 'x');
    var a, b := BinaryOperation(Multiplication, Constant(5.0), right), BinaryOperation(Multiplication, zero, left);
    ConstantFolding(5.0, 3.0, 'y', 2);
    ZeroAbsorption(left);
    OperandReduction(Addition, a, b);
    SimplifyAfterStep(BinaryOperation(Addition, a, b));
    RightIdentityRule(Addition, Monomial(15.0, 'y', 2));
    SimplifyAfterStep(BinaryOperation(Addition, Monomial(15.0, 'y', 2), zero));
    FixpointIffIrreducible(Monomial(15.0, 'y', 2));
  }

  /** `d/dy((5x)(3y^2)) = (6y)(5x)`, the product of two monomials being irreducible. */
  lemma DeriveProductByY()
    ensures Derive(BinaryOperation(Multiplication, Monomial(5.0, 'x', 1), Monomial(3.0, 'y', 2)), 'y')
         == Ok(BinaryOperation(Multiplication, Monomial(6.0, 'y', 1), Monomial(5.0, 'x', 1)))
  {
    var left, right, zero := Monomial(5.0, 'x', 1), Monomial(3.0, 'y', 2), Constant(0.0);
    PowerRule(5.0, 'x', 1, 'y');
    PowerRule(3.0, 'y', 2, 'y');
    ProductRule(left, right, 'y');
    var c, d := BinaryOperation(Multiplication, zero, right), BinaryOperation(Multiplication, Monomial(6.0, 'y', 1), left);
    ZeroAbsorption(right);
    OperandReduction(Multiplication, Monomial(6.0, 'y', 1), left);
    OperandReduction(Addition, c, d);
    SimplifyAfterStep(BinaryOperation(Addition, c, d));
    LeftIdentityRule(Addition, d);
    SimplifyAfterStep(BinaryOperation(Addition, zero, d));
    FixpointIffIrreducible(d);
  }

  /** `d/dz((5x)(3y^2)) = 0`. */
  lemma DeriveProductByZ()
    ensures Derive(BinaryOperation(Multiplication, Monomial(5.0, 'x', 1), Monomial(3.0, 'y', 2)), 'z')
         == Ok(Constant(0.0))
  {
    AbsentVariableDerivesToZero(BinaryOperation(Multiplication, Monomial(5.0, 'x', 1), Monomial(3.0, 'y', 2)), 'z');
  }

  lemma DeriveSine()
    ensures Derive(Function(Sine, Monomial(1.0, 'x', 1)), 'y') == Ok(Constant(0.0))
    ensures Derive(Function(Sine, Monomial(1.0, 'x', 1)), 'x') == Ok(Function(Cosine, Monomial(1.0, 'x', 1)))
  {
    SineRule(Monomial(1.0, 'x', 1), 'y');
    SineRule(Monomial(1.0, 'x', 1), 'x');
  }

  lemma LegacyDerive()
    ensures L.Derive(L.Constant(5.0), 'x') == Ok(L.Constant(0.0))
    ensures L.Derive(L.Monomial(5.0, 'x', 1), 'y') == Ok(L.Constant(0.0))
    ensures L.Derive(L.Monomial(5.0, 'x', 1), 'x') == Ok(L.Constant(5.0))
    ensures L.Derive(L.Monomial(3.0, 'x', 2), 'y') == Ok(L.Constant(0.0))
    ensures L.Derive(L.Monomial(3.0, 'x', 2), 'x') == Ok(L.Monomial(6.0, 'x', 1))
    ensures L.Derive(L.Monomial(5.0, 'x', 3), 'y') == Ok(L.Constant(0.0))
    ensures L.Derive(L.Monomial(5.0, 'x', 3), 'x') == Ok(L.Monomial(15.0, 'x', 2))
    ensures var sum := L.Operation(L.Addition, L.Monomial(5.0, 'x', 1), L.Monomial(3.0, 'x', 2));
      && L.Derive(sum, 'y') == Ok(L.Constant(0.0))
      && L.Derive(sum, 'x') == Ok(L.Operation(L.Addition, L.Constant(5.0), L.Monomial(6.0, 'x', 1)))
  {
    L.PowerRule(3.0, 'x', 2, 'y');
    L.PowerRule(3.0, 'x', 2, 'x');
    L.PowerRule(5.0, 'x', 3, 'x');
    L.PowerRule(5.0, 'x', 3, 'y');
    L.PowerRule(5.0, 'x', 1, 'x');
    L.PowerRule(5.0, 'x', 1, 'y');
    var sum := L.Operation(L.Addition, L.Monomial(5.0, 'x', 1), L.Monomial(3.0, 'x', 2));
    L.OperationRules(L.Addition, L.Monomial(5.0, 'x', 1), L.Monomial(3.0, 'x', 2), 'x');
    L.OperationRules(L.Addition, L.Monomial(5.0, 'x', 1), L.Monomial(3.0, 'x', 2), 'y');
  }

  lemma LegacySimplify()
    ensures L.SimplifyExpression(L.Constant(5.0)) == L.Constant(5.0)
    ensures L.SimplifyExpression(L.Monomial(5.0, 'x', 2)) == L.Monomial(5.0, 'x', 2)
    ensures L.SimplifyExpression(L.Function(L.Cosine, L.Constant(5.0))) == L.Function(L.Cosine, L.Constant(5.0))
    ensures L.SimplifyExpression(L.Function(L.Sine, L.Constant(0.0))) == L.Constant(0.0)
    ensures L.SimplifyExpression(L.Operation(L.Addition, L.Constant(5.0), L.Constant(0.0))) == L.Constant(5.0)
  {
    L.SimplifyLeaves(5.0, 5.0, 'x', 2, L.Cosine, L.Constant(5.0));
    L.SimplifyOperationPrecedence(L.Addition, L.Constant(5.0), L.Constant(0.0));
  }

  /** The torus of the integration test, written in the mature representation. */
  function Torus(): Expression
  {
    BinaryOperation(Multiplication,
      Function(Cosine, Monomial(1.0, 'u', 1)),
      BinaryOperation(Addition,
        Monomial(1.0, 'R', 1),
        BinaryOperation(Multiplication, Monomial(1.0, 'r', 1), Function(Cosine, Monomial(1.0, 'v', 1)))))
  }

  lemma TorusVariables()
    ensures Variables(Torus()) == {'u', 'R', 'r', 'v'}
    ensures FromEmbedding({'u', 'v'}, [Torus()]) == Surface({'u', 'v'}, {'R', 'r'})
  {
    assert EmbeddingVariables([Torus()]) == {'u', 'R', 'r', 'v'};
  }
}
