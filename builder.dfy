/**
 The random function builder. Each call to the random number generator is an
 unconstrained choice within the bounds the generator is asked for.
 */
module ArtBuild {
  import opened ArtExpr

  /**
   Builds a random function whose depth lies between minDepth and maxDepth:
   a depth is drawn in that range; depth 1 gives a bare x or y, any greater
   depth a building block whose children are all built for exactly one less.
   */
  method BuildRandomFunction(minDepth: int, maxDepth: int) returns (f: Fn)
    requires 1 <= minDepth <= maxDepth
    ensures minDepth <= Depth(f) <= maxDepth
    ensures WellBuilt(f, Depth(f))
    decreases maxDepth
  {
    var ranRange := |BuildingBlocks| - 1;
    var depth :| minDepth <= depth <= maxDepth;
    if depth == 1 {
      var k :| 0 <= k <= |Base| - 1;
      f := Fn(Base[k], []);
      assert WellBuilt(f, 1);
    } else {
      var k :| 0 <= k <= ranRange;
      var op := BuildingBlocks[k];
      assert op in BuildingBlocks;
      var children: seq<Fn> := [];
      if op == Avg || op == Prod {
        var child1 := BuildRandomFunction(depth - 1, depth - 1);
        var child2 := BuildRandomFunction(depth - 1, depth - 1);
        children := children + [child1];
        children := children + [child2];
      } else {
        var child := BuildRandomFunction(depth - 1, depth - 1);
        children := children + [child];
      }
      f := Fn(op, children);
      NodeWellBuilt(f, depth);
    }
    WellBuiltDepth(f, depth);
  }
}
