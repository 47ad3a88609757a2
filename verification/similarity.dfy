/** Vectors and cosine similarity (pkg/vector/engine.go, duplicated in engine.go). */
module Similarity {
  import opened Wrappers

  /** A vector is an ordered sequence of numbers; its length is its dimension. */
  type Vector = seq<real>

  /** The two ways a similarity computation can fail. */
  datatype SimilarityError = LengthMismatch | ZeroVector

  /**
   * The value `dot / (sqrt(normA) * sqrt(normB))` is floating-point and square-root
   * arithmetic; it enters the model as this uninterpreted parameter, so that no
   * property of the model depends on it.
   */
  type ScoreFn = (Vector, Vector) -> real

  /** Sum of `a[i] * b[i]` over a common length, accumulated left to right. */
  function Dot(a: Vector, b: Vector): real
    requires |a| == |b|
  {
    if |a| == 0 then 0.0 else Dot(a[..|a| - 1], b[..|b| - 1]) + a[|a| - 1] * b[|b| - 1]
  }

  /** Sum of `v[i] * v[i]`: the squared Euclidean norm the source accumulates. */
  function SumSq(v: Vector): real
  {
    Dot(v, v)
  }

  /** Every component is zero. */
  predicate IsZero(v: Vector)
  {
    forall i :: 0 <= i < |v| ==> v[i] == 0.0
  }

  // The solver gives up on arithmetic that mixes sums with a product of a term by
  // itself, so the facts below are stated for a product `x * y` of two terms that
  // are only known to be equal, and sums of products are combined through
  // `SumNonNegative`, whose arguments are opaque to it.

  lemma ProductPositive(x: real, y: real)
    requires x == y && x != 0.0
    ensures x * y > 0.0
  {
    if x < 0.0 {
      assert (-x) * (-y) > 0.0;
    }
  }

  lemma ProductZero(x: real, y: real)
    requires x == 0.0
    ensures x * y == 0.0
  {
  }

  lemma SumNonNegative(a: real, b: real)
    requires a >= 0.0 && b >= 0.0
    ensures a + b >= 0.0
    ensures a + b == 0.0 <==> a == 0.0 && b == 0.0
  {
  }

  /** The dot product of a vector with itself is non-negative, and zero only for the zero vector. */
  lemma {:induction false} DotSelf(u: Vector, w: Vector)
    requires u == w
    ensures Dot(u, w) >= 0.0
    ensures Dot(u, w) == 0.0 <==> IsZero(u)
  {
    if |u| > 0 {
      var p, q := u[..|u| - 1], w[..|w| - 1];
      var x, y := u[|u| - 1], w[|w| - 1];
      DotSelf(p, q);
      if x != 0.0 {
        ProductPositive(x, y);
      } else {
        ProductZero(x, y);
      }
      SumNonNegative(Dot(p, q), x * y);
      assert IsZero(u) <==> IsZero(p) && x == 0.0 by {
        if IsZero(p) && x == 0.0 {
          forall i | 0 <= i < |u| ensures u[i] == 0.0 {
            if i < |p| {
              assert u[i] == p[i];
            }
          }
        }
        if IsZero(u) {
          forall i | 0 <= i < |p| ensures p[i] == 0.0 {
            assert p[i] == u[i];
          }
        }
      }
    }
  }

  /**
   * Over the reals the sum of squares is never negative, and it is zero exactly
   * for the all-zero vector (floating-point underflow is outside the model).
   */
  lemma SumSqZeroIff(v: Vector)
    ensures SumSq(v) >= 0.0
    ensures SumSq(v) == 0.0 <==> IsZero(v)
  {
    DotSelf(v, v);
  }

  /**
   * CosineSimilarity: fails on a length mismatch before any arithmetic, then fails
   * when either sum of squares is zero, and otherwise yields the score.
   */
  function CosineSimilarity(v1: Vector, v2: Vector, score: ScoreFn): (r: Result<real, SimilarityError>)
    ensures r == Failure(LengthMismatch) <==> |v1| != |v2|
    ensures r == Failure(ZeroVector) <==> |v1| == |v2| && (IsZero(v1) || IsZero(v2))
    ensures r.Success? <==> |v1| == |v2| && !IsZero(v1) && !IsZero(v2)
    ensures r.Success? ==> r.value == score(v1, v2)
  {
    if |v1| != |v2| then
      Failure(LengthMismatch)
    else
      SumSqZeroIff(v1);
      SumSqZeroIff(v2);
      if SumSq(v1) == 0.0 || SumSq(v2) == 0.0 then
        Failure(ZeroVector)
      else
        Success(score(v1, v2))
  }

  /**
   * The single accumulation loop of CosineSimilarity: one pass that builds the dot
   * product and both sums of squares together.
   */
  method Accumulate(v1: Vector, v2: Vector) returns (dot: real, normA: real, normB: real)
    requires |v1| == |v2|
    ensures dot == Dot(v1, v2)
    ensures normA == SumSq(v1) && normB == SumSq(v2)
    ensures normA >= 0.0 && normB >= 0.0
    ensures normA == 0.0 <==> IsZero(v1)
    ensures normB == 0.0 <==> IsZero(v2)
  {
    dot, normA, normB := 0.0, 0.0, 0.0;
    var i := 0;
    while i < |v1|
      invariant 0 <= i <= |v1|
      invariant dot == Dot(v1[..i], v2[..i])
      invariant normA == SumSq(v1[..i])
      invariant normB == SumSq(v2[..i])
    {
      assert v1[..i + 1][..i] == v1[..i];
      assert v2[..i + 1][..i] == v2[..i];
      dot := dot + v1[i] * v2[i];
      normA := normA + v1[i] * v1[i];
      normB := normB + v2[i] * v2[i];
      i := i + 1;
    }
    assert v1[..i] == v1;
    assert v2[..i] == v2;
    SumSqZeroIff(v1);
    SumSqZeroIff(v2);
  }

  /** Whether a comparison fails, and why, does not depend on the order of the arguments. */
  lemma CosineSimilarityOutcomeSymmetric(v1: Vector, v2: Vector, score: ScoreFn)
    ensures CosineSimilarity(v1, v2, score).Success? <==> CosineSimilarity(v2, v1, score).Success?
    ensures CosineSimilarity(v1, v2, score).Failure? ==> CosineSimilarity(v1, v2, score) == CosineSimilarity(v2, v1, score)
  {
  }

  /** A vector that is not all zeros can be compared with itself. */
  lemma CosineSimilaritySelf(v: Vector, score: ScoreFn)
    requires !IsZero(v)
    ensures CosineSimilarity(v, v, score) == Success(score(v, v))
  {
  }
}
