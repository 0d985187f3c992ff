/**
 Evaluation of a random function at a point (x, y). Cosine and sine are not
 defined here: they are passed in as a Trig record, and the facts the model
 relies on are stated on that record: Bounded(t) for the closure results,
 cos 0 = 1 and sin 0 = 0 for the documented examples.
 */
module ArtEval {
  import opened ArtExpr

  /** The value of math.pi. */
  const Pi: real := 3.141592653589793

  /** The trigonometric functions evaluation calls. */
  datatype Trig = Trig(cos: real -> real, sin: real -> real)

  /** Both functions stay within [-1, 1]. */
  ghost predicate Bounded(t: Trig)
  {
    && (forall a: real :: -1.0 <= t.cos(a) <= 1.0)
    && (forall a: real :: -1.0 <= t.sin(a) <= 1.0)
  }

  /** The operator named op applied to the pair (a, b); x and y select a and b. */
  function Apply(op: Op, a: real, b: real, t: Trig): (r: real)
  {
    match op
    case X => a
    case Y => b
    case Avg => 0.5 * (a + b)
    case Prod => a * b
    case CosPi => t.cos(Pi * a)
    case SinPi => t.sin(Pi * a)
    case CosPiSquared => t.cos(Pi * Pi * a)
    case SinPiSquared => t.sin(Pi * Pi * a)
  }

  /**
   Evaluation as the program performs it. A bare operator list applies its
   operator to (x, y). Any list with children takes the single-child path,
   because the test for two children compares a one-element list with
   strings and never succeeds: only the first child is evaluated, and its
   value is combined with the original y.
   */
  function Eval(f: Fn, x: real, y: real, t: Trig): (r: real)
    decreases f
  {
    if f.args == [] then Apply(f.op, x, y, t)
    else Apply(f.op, Eval(f.args[0], x, y, t), y, t)
  }

  /**
   Evaluation as the documentation describes it: avg and prod combine the
   values of both their children. A node with fewer children than its
   operator takes falls back to the single-child path.
   */
  function EvalIntended(f: Fn, x: real, y: real, t: Trig): (r: real)
    decreases f
  {
    if f.args == [] then Apply(f.op, x, y, t)
    else if (f.op == Avg || f.op == Prod) && |f.args| >= 2 then
      Apply(f.op, EvalIntended(f.args[0], x, y, t), EvalIntended(f.args[1], x, y, t), t)
    else Apply(f.op, EvalIntended(f.args[0], x, y, t), y, t)
  }

  /** Every operator maps [-1, 1] x [-1, 1] into [-1, 1]. */
  lemma ApplyClosed(op: Op, a: real, b: real, t: Trig)
    requires Bounded(t)
    requires -1.0 <= a <= 1.0 && -1.0 <= b <= 1.0
    ensures -1.0 <= Apply(op, a, b, t) <= 1.0
  {
    if op == Prod {
      ProdBounded(a, b);
    }
  }

  /** The product of two values of [-1, 1] lies in [-1, 1]. */
  lemma ProdBounded(a: real, b: real)
    requires -1.0 <= a <= 1.0 && -1.0 <= b <= 1.0
    ensures -1.0 <= a * b <= 1.0
  {
    if a >= 0.0 {
      assert -a <= a * b <= a;
    } else {
      assert a <= a * b <= -a;
    }
  }

  /** Closure: at a point of [-1, 1] x [-1, 1] every random function evaluates into [-1, 1]. */
  lemma {:induction false} EvalClosed(f: Fn, x: real, y: real, t: Trig)
    requires Bounded(t)
    requires -1.0 <= x <= 1.0 && -1.0 <= y <= 1.0
    ensures -1.0 <= Eval(f, x, y, t) <= 1.0
    decreases f
  {
    if f.args == [] {
      ApplyClosed(f.op, x, y, t);
    } else {
      EvalClosed(f.args[0], x, y, t);
      ApplyClosed(f.op, Eval(f.args[0], x, y, t), y, t);
    }
  }

  /** The same closure holds for the two-child evaluation. */
  lemma {:induction false} EvalIntendedClosed(f: Fn, x: real, y: real, t: Trig)
    requires Bounded(t)
    requires -1.0 <= x <= 1.0 && -1.0 <= y <= 1.0
    ensures -1.0 <= EvalIntended(f, x, y, t) <= 1.0
    decreases f
  {
    if f.args == [] {
      ApplyClosed(f.op, x, y, t);
    } else if (f.op == Avg || f.op == Prod) && |f.args| >= 2 {
      EvalIntendedClosed(f.args[0], x, y, t);
      EvalIntendedClosed(f.args[1], x, y, t);
      ApplyClosed(f.op, EvalIntended(f.args[0], x, y, t), EvalIntended(f.args[1], x, y, t), t);
    } else {
      EvalIntendedClosed(f.args[0], x, y, t);
      ApplyClosed(f.op, EvalIntended(f.args[0], x, y, t), y, t);
    }
  }

  /** ["x"] evaluates to x and ["y"] to y. */
  lemma EvalLeaf(x: real, y: real, t: Trig)
    ensures Eval(Fn(X, []), x, y, t) == x
    ensures Eval(Fn(Y, []), x, y, t) == y
  {
  }

  /** A bare operator list applies its operator to (x, y) directly. */
  lemma EvalBareOperator(op: Op, x: real, y: real, t: Trig)
    ensures Eval(Fn(op, []), x, y, t) == Apply(op, x, y, t)
    ensures op == Avg ==> Eval(Fn(op, []), x, y, t) == 0.5 * (x + y)
    ensures op == Prod ==> Eval(Fn(op, []), x, y, t) == x * y
  {
  }

  /**
   A two-child avg or prod node combines its first child's value with the
   original y, whatever its second child is.
   */
  lemma EvalBinaryNode(op: Op, c1: Fn, c2: Fn, other: Fn, x: real, y: real, t: Trig)
    requires op == Avg || op == Prod
    ensures op == Avg ==> Eval(Fn(op, [c1, c2]), x, y, t) == 0.5 * (Eval(c1, x, y, t) + y)
    ensures op == Prod ==> Eval(Fn(op, [c1, c2]), x, y, t) == Eval(c1, x, y, t) * y
    ensures Eval(Fn(op, [c1, c2]), x, y, t) == Eval(Fn(op, [c1, other]), x, y, t)
  {
  }

  /** A one-child node applies its operator to the child's value (first) and y. */
  lemma EvalUnaryNode(op: Op, c: Fn, x: real, y: real, t: Trig)
    ensures op == CosPi ==> Eval(Fn(op, [c]), x, y, t) == t.cos(Pi * Eval(c, x, y, t))
    ensures op == SinPi ==> Eval(Fn(op, [c]), x, y, t) == t.sin(Pi * Eval(c, x, y, t))
    ensures op == CosPiSquared ==> Eval(Fn(op, [c]), x, y, t) == t.cos(Pi * Pi * Eval(c, x, y, t))
    ensures op == SinPiSquared ==> Eval(Fn(op, [c]), x, y, t) == t.sin(Pi * Pi * Eval(c, x, y, t))
  {
  }

  /** The documented examples of evaluation. */
  lemma EvalExamples(t: Trig)
    requires t.cos(0.0) == 1.0 && t.sin(0.0) == 0.0
    ensures Eval(Fn(X, []), -0.5, 0.75, t) == -0.5
    ensures Eval(Fn(Y, []), 0.1, 0.02, t) == 0.02
    ensures Eval(Fn(CosPi, [Fn(SinPi, [Fn(Y, [])])]), 0.0, 0.0, t) == 1.0
    ensures Eval(Fn(Prod, [Fn(SinPi, [Fn(X, [])]), Fn(CosPi, [Fn(X, [])])]), 0.0, 0.0, t) == 0.0
  {
    assert Eval(Fn(SinPi, [Fn(Y, [])]), 0.0, 0.0, t) == t.sin(Pi * 0.0) == 0.0;
  }

  /**
   The two-child test never fires: avg(x, x) at (1, -1) comes out as
   0.5 * (1 + -1) = 0, where the documented avg(a, b) = 0.5 * (a + b) gives 1.
   */
  lemma EvalDropsSecondChild(t: Trig)
    ensures Eval(Fn(Avg, [Fn(X, []), Fn(X, [])]), 1.0, -1.0, t) == 0.0
    ensures EvalIntended(Fn(Avg, [Fn(X, []), Fn(X, [])]), 1.0, -1.0, t) == 1.0
  {
  }

  /**
   With the two-child test corrected, avg and prod combine the values of both
   their children as documented.
   */
  lemma EvalIntendedCombinesBoth(op: Op, c1: Fn, c2: Fn, x: real, y: real, t: Trig)
    ensures op == Avg ==> EvalIntended(Fn(op, [c1, c2]), x, y, t)
                          == 0.5 * (EvalIntended(c1, x, y, t) + EvalIntended(c2, x, y, t))
    ensures op == Prod ==> EvalIntended(Fn(op, [c1, c2]), x, y, t)
                           == EvalIntended(c1, x, y, t) * EvalIntended(c2, x, y, t)
  {
    if op == Avg {
      EvalIntendedAvg(c1, c2, x, y, t);
    } else if op == Prod {
      EvalIntendedProd(c1, c2, x, y, t);
    }
  }

  /** A two-child avg node averages both children's values. */
  lemma EvalIntendedAvg(c1: Fn, c2: Fn, x: real, y: real, t: Trig)
    ensures EvalIntended(Fn(Avg, [c1, c2]), x, y, t)
            == 0.5 * (EvalIntended(c1, x, y, t) + EvalIntended(c2, x, y, t))
  {
    var a, b := EvalIntended(c1, x, y, t), EvalIntended(c2, x, y, t);
    EvalIntendedTwoChildren(Avg, c1, c2, x, y, t);
    assert Apply(Avg, a, b, t) == 0.5 * (a + b);
  }

  /** A two-child prod node multiplies both children's values. */
  lemma EvalIntendedProd(c1: Fn, c2: Fn, x: real, y: real, t: Trig)
    ensures EvalIntended(Fn(Prod, [c1, c2]), x, y, t)
            == EvalIntended(c1, x, y, t) * EvalIntended(c2, x, y, t)
  {
    var a, b := EvalIntended(c1, x, y, t), EvalIntended(c2, x, y, t);
    EvalIntendedTwoChildren(Prod, c1, c2, x, y, t);
    assert Apply(Prod, a, b, t) == a * b;
  }

  /** An avg or prod node with two children applies its operator to both children's values. */
  lemma EvalIntendedTwoChildren(op: Op, c1: Fn, c2: Fn, x: real, y: real, t: Trig)
    requires op == Avg || op == Prod
    ensures EvalIntended(Fn(op, [c1, c2]), x, y, t)
            == Apply(op, EvalIntended(c1, x, y, t), EvalIntended(c2, x, y, t), t)
  {
    var f := Fn(op, [c1, c2]);
    assert f.args[0] == c1 && f.args[1] == c2;
  }

  /**
   The two evaluations differ only at avg and prod nodes: on a function without
   an avg or prod node they agree everywhere.
   */
  lemma {:induction false} EvalAgreesWithoutBinaryNodes(f: Fn, x: real, y: real, t: Trig)
    requires NoBinaryNode(f)
    ensures Eval(f, x, y, t) == EvalIntended(f, x, y, t)
    decreases f
  {
    if f.args != [] {
      EvalAgreesWithoutBinaryNodes(f.args[0], x, y, t);
    }
  }

  /** No node of f is an avg or prod. */
  predicate NoBinaryNode(f: Fn)
    decreases f
  {
    && f.op != Avg && f.op != Prod
    && forall i :: 0 <= i < |f.args| ==> NoBinaryNode(f.args[i])
  }
}
