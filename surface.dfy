/** A surface given by an embedding: the free variables of the embedding's
    expressions split into the given surface variables and the remaining
    parametric ones. */
module SurfaceModel {
  import opened ExpressionModel

  datatype Surface = Surface(surface_variables: set<Variable>, parametric_variables: set<Variable>)

  /** Every variable free in some expression of the embedding. */
  function EmbeddingVariables(embedding: seq<Expression>): (all: set<Variable>)
    ensures forall v :: v in all <==> exists k :: 0 <= k < |embedding| && v in Variables(embedding[k])
  {
    if |embedding| == 0 then {}
    else Variables(embedding[0]) + EmbeddingVariables(embedding[1..])
  }

  /** Keeps the surface variables as given; the parametric variables are
      the embedding's free variables that are not surface variables. */
  function FromEmbedding(surface_variables: set<Variable>, embedding: seq<Expression>): (s: Surface)
    ensures s.surface_variables == surface_variables
    ensures s.surface_variables !! s.parametric_variables
    ensures forall k :: 0 <= k < |embedding| ==>
      Variables(embedding[k]) <= s.surface_variables + s.parametric_variables
    ensures forall v :: v in s.parametric_variables <==>
      v !in surface_variables && exists k :: 0 <= k < |embedding| && v in Variables(embedding[k])
  {
    Surface(surface_variables, EmbeddingVariables(embedding) - surface_variables)
  }

  /** An empty embedding has no parametric variable. */
  lemma EmptyEmbedding(surface_variables: set<Variable>)
    ensures FromEmbedding(surface_variables, []).parametric_variables == {}
  {
  }

  /** Surface and parametric variables together are exactly the given
      surface variables and the embedding's free variables. */
  lemma PartitionCoversExactly(surface_variables: set<Variable>, embedding: seq<Expression>)
    ensures var s := FromEmbedding(surface_variables, embedding);
      s.surface_variables + s.parametric_variables == surface_variables + EmbeddingVariables(embedding)
  {
  }
}
