/**
 The random functions of the art generator: a nested list whose head names an
 operator and whose tail holds the argument functions, e.g.
 ["prod", ["sin_pi", ["x"]], ["cos_pi", ["x"]]].
 */
module ArtExpr {

  /** The eight names a random function's head can carry. */
  datatype Op = X | Y | Avg | Prod | CosPi | SinPi | CosPiSquared | SinPiSquared

  /** A random function: its operator name followed by its children. */
  datatype Fn = Fn(op: Op, args: seq<Fn>)

  /** The names chosen at depth 1, in the order the builder indexes them. */
  const Base: seq<Op> := [X, Y]

  /** The names chosen at depth greater than 1, in the order the builder indexes them. */
  const BuildingBlocks: seq<Op> := [Avg, Prod, CosPi, SinPi, CosPiSquared, SinPiSquared]

  /** Number of children each operator is built with. */
  function Arity(op: Op): nat
  {
    match op
    case X | Y => 0
    case Avg | Prod => 2
    case CosPi | SinPi | CosPiSquared | SinPiSquared => 1
  }

  /** Depth of a function: 1 for a node without children, one more than its deepest child otherwise. */
  function Depth(f: Fn): (d: nat)
    decreases f, 1
  {
    1 + MaxDepth(f.args)
  }

  /** Largest depth among a list of children, 0 for no children. */
  function MaxDepth(cs: seq<Fn>): (m: nat)
    decreases cs, 0
  {
    if cs == [] then 0
    else
      var a := Depth(cs[0]);
      var b := MaxDepth(cs[1..]);
      if a < b then b else a
  }

  /**
   The shape the builder gives a function whose chosen depth is d: at depth 1 a
   bare x or y; deeper, a building block with exactly as many children as it
   takes, each of them shaped for depth d - 1.
   */
  predicate WellBuilt(f: Fn, d: int)
    decreases f
  {
    if d == 1 then
      f.op in Base && f.args == []
    else
      && d > 1
      && f.op in BuildingBlocks
      && |f.args| == Arity(f.op)
      && forall i :: 0 <= i < |f.args| ==> WellBuilt(f.args[i], d - 1)
  }

  /** A list of children that all have depth k, and at least one of them, has largest depth k. */
  lemma {:induction false} MaxDepthOfEqualDepths(cs: seq<Fn>, k: nat)
    requires cs != []
    requires forall i :: 0 <= i < |cs| ==> Depth(cs[i]) == k
    ensures MaxDepth(cs) == k
    decreases |cs|
  {
    if |cs| > 1 {
      MaxDepthOfEqualDepths(cs[1..], k);
    }
  }

  /** A function shaped for depth d has depth exactly d. */
  lemma {:induction false} WellBuiltDepth(f: Fn, d: int)
    requires WellBuilt(f, d)
    ensures Depth(f) == d
    decreases f
  {
    if d != 1 {
      forall i | 0 <= i < |f.args|
        ensures Depth(f.args[i]) == d - 1
      {
        WellBuiltDepth(f.args[i], d - 1);
      }
      MaxDepthOfEqualDepths(f.args, d - 1);
    }
  }

  /** A building block whose children all have the builder's shape for d - 1 has the shape for d. */
  lemma NodeWellBuilt(f: Fn, d: int)
    requires d > 1 && f.op in BuildingBlocks && |f.args| == Arity(f.op)
    requires forall i :: 0 <= i < |f.args| ==>
               (WellBuilt(f.args[i], Depth(f.args[i])) && Depth(f.args[i]) == d - 1)
    ensures WellBuilt(f, d)
  {
  }

  /**
   What the shape means node by node: depth 1 is exactly ["x"] or ["y"]; a
   deeper node is a building block that carries two children for avg and
   prod, one for the other four building blocks, and every child has depth
   exactly one less.
   */
  lemma WellBuiltNode(f: Fn, d: int)
    requires WellBuilt(f, d)
    ensures d == 1 ==> f == Fn(X, []) || f == Fn(Y, [])
    ensures d > 1 ==> f.op in BuildingBlocks && |f.args| == Arity(f.op)
    ensures d > 1 ==> (|f.args| == 2 <==> f.op == Avg || f.op == Prod)
    ensures d > 1 ==> (|f.args| == 1 <==> f.op in {CosPi, SinPi, CosPiSquared, SinPiSquared})
    ensures forall i :: 0 <= i < |f.args| ==> Depth(f.args[i]) == d - 1
  {
    forall i | 0 <= i < |f.args|
      ensures Depth(f.args[i]) == d - 1
    {
      WellBuiltDepth(f.args[i], d - 1);
    }
  }
}
