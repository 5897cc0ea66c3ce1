# Symbolic differentiation and simplification, modelled in Dafny

This project models the core of a small Rust engine for symbolic algebra.
It covers scalar expression trees: constants, named constants, monomials `factor * variable^power`
in a single variable, the four binary operations, and sine and cosine.
The model has four parts:

- the mature **simplifier** (`src/simplifiable.rs`). It is a single rewrite step
  (`DoSimplifyExpression`) that `SimplifyExpression` iterates until the step no longer applies;
- the mature **differentiator** (`src/derivable.rs`). It has the power rule, linearity for sums
  and differences, the product rule and a restricted sine rule. Results of the monomial and
  binary-operation rules go through the simplifier;
- the **legacy combined module** (`src/expression.rs`). This is the earlier iteration, with a flat
  `Operation` variant, differentiation of sums and differences only, and a one-step root-only
  simplifier. `Embed` relates it to the mature model;
- the **surface variable partition** (`src/surface.rs`). It splits the free variables of an
  embedding into the given surface set and the remaining parametric set.

Everything in the source is pure, so the model is made of datatypes, functions and lemmas.

Files:

- `wrappers.dfy`: `Option` and `Result`.
- `expression_model.dfy`: the mature expression type, the identity table, free variables and tree size.
- `simplifiable.dfy`, `derivable.dfy`, `legacy_expression.dfy`, `surface.dfy`: one module per core file.
- `evaluation.dfy`: the numeric meaning of a tree, used to show what simplification preserves.
- `source_tests.dfy`: the repository's unit tests and the torus embedding, stated as lemmas.

Main results:

- Each rewrite step that fires makes the tree strictly smaller and adds no variable. This is what
  makes the fixpoint iteration terminate.
- The result of simplification is irreducible. Simplification is idempotent. The irreducible trees
  are exactly the `Normal` ones, an independent description of "no rule applies anywhere".
- On trees built only from Addition and Multiplication, simplification preserves the value
  for any values of the variables, the named constants, sine and cosine with `sin(0) = 0`.
- Differentiation succeeds exactly on the trees the engine has rules for (`Differentiable`).
  A derivative never mentions a new variable. A derivative of a monomial or of a binary
  operation is already simplified. In a tree the engine can differentiate (`Differentiable`),
  a variable that does not occur derives to zero.
- Rewriting, simplification and differentiation keep every monomial power at least one. So the
  zero-power underflow can only come from an input tree, never from the engine's own results.
- The power rule and the identity table of the legacy module agree with the mature ones.
  Whenever the legacy one-step simplifier changes a tree, the mature rewrite step makes the same
  change. The legacy simplifier is not idempotent.
- The surface and parametric sets are disjoint. Together they cover every free variable of the
  embedding. The parametric set is exactly the free variables minus the surface set.

Decisions where the code leaves a gap or reads differently from what its interfaces suggest:

- The mature `Expression` type, `identity_element` on the operation type and `variables()` are
  not part of this model's source files. The type is rebuilt from how `src/simplifiable.rs` and
  `src/derivable.rs` use it, with the `Monomial` and `BinaryOperation` struct fields written inline.
  `IdentityElement` uses the table of `src/expression.rs:11-16`. `Variables` is the recursive union
  over the tree.
- Only the monomial and operation arms of `derive` simplify their result
  (`src/derivable.rs:15,18`). The constant and function arms return it unsimplified
  (`src/derivable.rs:13,23`). The model follows the code.

## Model

| member | source | states |
|---|---|---|
| ExpressionModel.IdentityElement | src/expression.rs:11-16 | the identity element of every operator is a constant (the table's meaning is in the two rows for `IdentityElementIsNeutral` and `LegacyExpression.IdentityElement`) |
| Simplifiable.SimplifyFunctionSubexpression | src/simplifiable.rs:17-25 | reducing a function node through its argument gives a smaller tree without new variables |
| Simplifiable.SimplifyFunction | src/simplifiable.rs:27-39 | a Sine/Cosine reduction, when there is one, is smaller than the node and adds no variable |
| Simplifiable.SimplifyOperation | src/simplifiable.rs:41-91 | every binary-operation rule that fires gives a tree smaller than the operation, over the operands' variables only |
| Simplifiable.SimplifyOperationOperands | src/simplifiable.rs:93-115 | operand reduction, when it fires, shrinks the operation and adds no variable |
| Simplifiable.DoSimplifyExpression | src/simplifiable.rs:117-126 | every step that returns Some has strictly fewer nodes and no new variable (the termination measure of line 11) |
| Simplifiable.SimplifyExpression | src/simplifiable.rs:7-14 | the fixpoint iteration terminates with an irreducible tree that is no larger and has no new variable |
| Simplifiable.IrreducibleIffNormal | src/simplifiable.rs:41-126 | the step returns None exactly when no rule applies at any node (`Normal`) |
| Simplifiable.SimplifyYieldsNormal | src/simplifiable.rs:7-14 | the simplifier's result is in normal form |
| Simplifiable.FixpointIffIrreducible | src/simplifiable.rs:10-13 | simplification returns its input unchanged exactly when no step applies |
| Simplifiable.SimplifyIdempotent | src/simplifiable.rs:10-13 | simplifying twice equals simplifying once |
| Simplifiable.SimplifyAfterStep | src/simplifiable.rs:10-11 | when a step applies, the result is the simplification of the reduced tree |
| Simplifiable.StepKeepsPositivePowers | src/simplifiable.rs:41-126 | a rewrite step on a tree whose monomial powers are all at least one keeps them so |
| Simplifiable.SimplifyKeepsPositivePowers | src/simplifiable.rs:7-14 | simplification keeps every monomial power at least one |
| Simplifiable.LeftIdentityRule | src/simplifiable.rs:46-48 | a left operand equal to the identity gives the right operand, before any other rule; `0 - x` and `1 / x` give `x` |
| Simplifiable.DivisionIdentityRules | src/simplifiable.rs:46-51 | with the Division identity `1`, both `1 / x` and `x / 1` become `x` |
| Simplifiable.RightIdentityRule | src/simplifiable.rs:49-51 | a right operand equal to the identity gives the left operand (when both operands are the identity, the earlier left rule gives the same tree) |
| Simplifiable.ZeroAbsorption | src/simplifiable.rs:52-62 | a product with a zero on either side, and a quotient with a zero numerator, reduce to zero whatever the other operand |
| Simplifiable.LikeTermCollection | src/simplifiable.rs:63-72 | two monomials with the same variable and power add into one monomial whose factor is the sum |
| Simplifiable.UnlikeTermsIrreducible | src/simplifiable.rs:63-76 | a sum of monomials differing in variable or power is not collected and is irreducible |
| Simplifiable.ConstantFolding | src/simplifiable.rs:77-89 | a non-zero constant times a monomial, in either order, gives the monomial with factor `factor * c`; a zero constant is absorbed first |
| Simplifiable.SineOfZero | src/simplifiable.rs:31-34 | `sin(0)` reduces to `0` |
| Simplifiable.FunctionReduction | src/simplifiable.rs:17-39 | any other function node reduces iff its argument does, keeping the same function around the reduced argument |
| Simplifiable.OperandReduction | src/simplifiable.rs:93-115 | with no root rule, the operator is kept, each reducing operand is replaced and the other kept, and None means neither operand reduces |
| Derivable.DeriveMonomial | src/derivable.rs:29-43 | a monomial in another variable derives to zero; the rule fails only on power 0 in the variable; the result mentions only the monomial's variable |
| Derivable.DeriveOperation | src/derivable.rs:45-69 | Division fails; any raw derivative mentions only the operands' variables |
| Derivable.DeriveFunction | src/derivable.rs:71-88 | a function of an argument without the variable derives to zero; the result mentions only the argument's variables |
| Derivable.Derive | src/derivable.rs:10-27 | a derivative mentions no new variable and, for monomials and binary operations, is irreducible for the simplifier |
| Derivable.DeriveSucceedsIff | src/derivable.rs:10-88 | differentiation succeeds iff no Division, no Cosine over the variable and no zero power in the variable is reached |
| Derivable.ConstantsDeriveToZero | src/derivable.rs:13 | constants and named constants derive to zero for every variable |
| Derivable.PowerRule | src/derivable.rs:29-43 | another variable gives 0, power 1 gives the factor, power p >= 2 gives `(factor*p) x^(p-1)`, power 0 fails |
| Derivable.SumRule | src/derivable.rs:45-53 | sums and differences derive to the same operator over the two derivatives, simplified |
| Derivable.ProductRule | src/derivable.rs:54-66 | products derive to `d(l)*r + d(r)*l` with the operands copied unchanged, simplified |
| Derivable.SineRule | src/derivable.rs:76-86 | Sine derives to 0 without the variable, otherwise to Cosine of the same argument, unsimplified and without an inner factor |
| Derivable.UnsupportedRules | src/derivable.rs:67-82 | Division, and Cosine of an argument holding the variable, fail |
| Derivable.DeriveKeepsPositivePowers | src/derivable.rs:10-88 | on a tree with all monomial powers at least one, differentiation never underflows the power and its result keeps all powers at least one |
| Derivable.DerivativeIsSimplified | src/derivable.rs:14-19 | for monomials and binary operations the derivative is a fixpoint of the simplifier |
| Derivable.AbsentVariableDerivesToZero | src/derivable.rs:10-27 | a differentiable tree in which the variable does not occur derives to zero |
| Evaluation.IdentityElementIsNeutral | src/expression.rs:11-16 | the identity table is neutral on the right of Addition, Substraction and Multiplication, and on the left of Addition and Multiplication |
| Evaluation.StepPreservesValue | src/simplifiable.rs:41-126 | on a tree of sums and products, a rewrite step keeps the value and the shape class |
| Evaluation.SimplifyPreservesValue | src/simplifiable.rs:7-14 | simplification keeps the value of every tree of sums and products |
| Evaluation.SubtractionFromZeroChangesValue | src/simplifiable.rs:46-48 | `0 - x` simplifies to `x`, whose value differs |
| LegacyExpression.IdentityElement | src/expression.rs:11-16 | the legacy identity table is the mature one |
| LegacyExpression.DeriveMonomial | src/expression.rs:43-62 | the legacy power rule succeeds and fails on the same inputs as the mature one and gives the same tree |
| LegacyExpression.DeriveOperation | src/expression.rs:64-78 | Multiplication and Division fail; a derivative of a sum or difference mentions only the operands' variables |
| LegacyExpression.Derive | src/expression.rs:80-105 | a legacy derivative mentions no new variable |
| LegacyExpression.SimplifyFunction | src/expression.rs:107-124 | a function node is rebuilt unchanged or becomes `0`, and it becomes a constant exactly when it is `sin(0)` |
| LegacyExpression.SimplifyOperation | src/expression.rs:126-142 | the result is the right operand, the left operand or the same operation, with no recursion |
| LegacyExpression.SimplifyExpression | src/expression.rs:144-157 | one root-only step, never larger, no new variable, and whenever it changes the tree the mature step makes the same change |
| LegacyExpression.DeriveSucceedsIff | src/expression.rs:64-105 | legacy differentiation succeeds iff the tree has only constants, monomials (no zero power in the variable), sums and differences |
| LegacyExpression.ConstantAndFunctionRules | src/expression.rs:80-105 | constants derive to zero; function nodes fail |
| LegacyExpression.PowerRule | src/expression.rs:43-62 | another variable gives 0, power 1 gives the factor, power p >= 2 gives `(factor*p) x^(p-1)`, power 0 fails |
| LegacyExpression.OperationRules | src/expression.rs:64-78 | sums and differences derive to the same operator over the derivatives, simplified at the root; products and quotients fail |
| LegacyExpression.SimplifyLeaves | src/expression.rs:144-157 | constants and monomials are unchanged; `sin(0)` becomes `0`; other function nodes are unchanged |
| LegacyExpression.SimplifyOperationPrecedence | src/expression.rs:126-142 | a left identity gives the right operand, otherwise a right identity the left operand, otherwise the identical operation |
| LegacyExpression.SimplifyNotIdempotent | src/expression.rs:144-157 | simplifying `0 + (0 + x)` once and twice give different trees |
| LegacyExpression.AbsentVariableDerivesToZero | src/expression.rs:64-105 | a differentiable legacy tree in which the variable does not occur derives to zero |
| SurfaceModel.EmbeddingVariables | src/surface.rs:15-16 | the collected set holds exactly the variables free in some expression of the embedding |
| SurfaceModel.FromEmbedding | src/surface.rs:11-25 | the surface set is the argument, the two sets are disjoint and cover every free variable, and the parametric set is the free variables minus the surface set |
| SurfaceModel.EmptyEmbedding | src/surface.rs:15-16 | an empty embedding has no parametric variable |
| SurfaceModel.PartitionCoversExactly | src/surface.rs:15-23 | the union of the two sets is the surface set plus the embedding's free variables |
| SourceTests.SimplifyExpressionCases | src/simplifiable.rs:133-180 | leaves and `cos(5)` are fixpoints; `sin(0)`, `5 + 0`, `5 * 1`, `5 * 0` simplify as the test expects |
| SourceTests.SimplifyLikeTerms | src/simplifiable.rs:182-205 | `5x + 3x` simplifies to `8x` |
| SourceTests.SimplifyConstantTimesMonomial | src/simplifiable.rs:207-244 | `5 * 3x^2` and `3x^2 * 5` simplify to `15x^2` |
| SourceTests.DeriveConstantsAndMonomials | src/derivable.rs:96-148 | the constant and monomial derivatives of the tests |
| SourceTests.DeriveSum | src/derivable.rs:150-181 | `d/dx(5x + 3x^2) = 5 + 6x` and `d/dy` of it is `0` |
| SourceTests.DeriveProductByX | src/derivable.rs:201-208 | `d/dx((5x)(3y^2)) = 15y^2` |
| SourceTests.DeriveProductByY | src/derivable.rs:209-224 | `d/dy((5x)(3y^2)) = (6y)(5x)` |
| SourceTests.DeriveProductByZ | src/derivable.rs:225 | `d/dz((5x)(3y^2)) = 0` |
| SourceTests.DeriveSine | src/derivable.rs:228-250 | `d/dy sin(x) = 0` and `d/dx sin(x) = cos(x)` |
| SourceTests.LegacyDerive | src/expression.rs:163-243 | the constant assertion, all six monomial assertions and both sum assertions of the legacy tests |
| SourceTests.LegacySimplify | src/expression.rs:245-277 | the legacy simplifier test cases |
| SourceTests.TorusVariables | tests/test_torus.rs:4-44 | the torus has free variables u, R, r, v, and with surface set {u, v} its parametric set is {R, r} |

## Left out

- ExpressionModel.IdentityElement: its contract only says the result is a constant. The table is tied to the legacy one. Evaluation shows the Addition, Substraction and Multiplication entries neutral. The Division entry `1` is fixed only by the table itself and by its use in `Simplifiable.DivisionIdentityRules`, because evaluation does not model division.
- Floating point: `f64` factors are exact reals. Rounding, NaN (which is not equal to itself) and `-0.0 == 0.0` are not modelled. The comparisons against `Constant(0.)` and `Constant(1.)` are exact real equality.
- Panics: `unimplemented!()` for Division, for Cosine over the variable and for the legacy Multiplication, Division and function nodes are `Err` values of a `Result`. They are not process aborts. When both operands would fail, the left operand's error is reported, because Rust evaluates it first.
- `u8` power underflow: `power - 1` on a zero power in the derivation variable (`src/derivable.rs:37`, `src/expression.rs:56`) is an `Err(PowerUnderflow)`. A debug build panics there and a release build wraps to 255. `factor * power` needs no overflow modelling.
- Value preservation is proved only for trees of sums and products. The left-identity rule turns `0 - x` and `1 / x` into `x`, and `0 / x` becomes `0` even where `x` is zero. Sine is an uninterpreted function with `sin(0) = 0`.
- The sine rule is not the chain rule, and neither Cosine nor Division has a rule. The model states this literal behaviour. It proves nothing about derivatives being mathematically correct.
- The diagnostic `println!` calls in the simplifier have no effect on results and are not modelled.
- `src/parser/parser.rs` is a binding to a grammar library whose grammar file is not part of this model.
- `tests/test_torus.rs` is written against the legacy `Operation` variant and passes a `Vec` where a set is expected. It is restated in the mature representation with a set of surface variables.
- `HashSet` hashing and iteration order are not modelled; sets are Dafny `set<char>`.
- The monomial with power 0 is not normalised to a constant, as in the source. The engine never builds one from a tree without one (`Derivable.DeriveKeepsPositivePowers`).
