# ComputationalArt: random functions, their evaluation and colour quantisation

This project models the symbolic core of `recursive_art.py`. That program
paints an image by building three random functions of `(x, y)`, one for each
colour channel. It evaluates each function at every pixel and quantises the
value to a channel value in `[0, 255]`.

- `ArtExpr` (`expr.dfy`) holds the random function. In the program it is a nested
  list such as `["prod", ["sin_pi", ["x"]], ["cos_pi", ["x"]]]`. Here it is
  `Fn(op, args)`, where `op` is one of the eight names and `args` are the child
  functions. A leaf is `Fn(X, [])`. The module also defines the depth of a
  function and `WellBuilt(f, d)`. That predicate is the shape the builder gives
  a function whose drawn depth is `d`.
- `ArtBuild` (`builder.dfy`) holds `build_random_function` as a recursive method.
  Each `random.randint(lo, hi)` becomes a choice `:|` within `[lo, hi]`. The
  method indexes the same two name lists as the program, in the same order. It
  collects the children by appending to a local list.
- `ArtEval` (`evaluator.dfy`) holds `evaluate_random_function`. It recurses over
  the structure and computes over reals. `math.cos` and `math.sin` arrive as a
  `Trig` parameter. `Bounded(t)` says both stay in `[-1, 1]`. The documented
  examples assume only `cos 0 = 1` and `sin 0 = 0`. `Pi` is the value of `math.pi`.
- `ArtColor` (`color.dfy`) holds `remap_interval` and `color_map`. Division is true
  division, as in Python 3: the doctests print `1.0` and `1.5`. `int()` becomes
  truncation toward zero.
- `ArtPixel` (`pixel.dfy`) gives the value the image loop of `generate_art` stores
  for one pixel. It is there only to state that the channel values are in range.

The evaluator follows the code as written. The two-child test on line 111 is
`[f[0]] in ['avg', 'prod']`. It compares a one-element list with strings, so
it is never true. Every node with children therefore evaluates its first
child only. It then applies its operator to that value and the original `y`.
So `["avg", a, b]` is `0.5 * (a + y)` and `["prod", a, b]` is `a * y`. The
docstring says `avg(a, b) = 0.5 * (a + b)`. The code and its docstring
disagree here, and the model follows the code (see Findings). The same rule
also covers a bare operator list such as `["avg"]`, which applies its
operator to `(x, y)`. It covers `["x", child]` too.

## Model

| member | source | states |
|---|---|---|
| `ArtBuild.BuildRandomFunction` | recursive_art.py:13-63 | For `1 <= min_depth <= max_depth` the built function's depth lies in `[min_depth, max_depth]`. When the two are equal it is exactly that depth. The function has the builder's shape at that depth. The method terminates because `max_depth` decreases. |
| `ArtExpr.WellBuiltDepth` | recursive_art.py:44-62 | A function of the builder's shape for drawn depth `d` has depth exactly `d`. Building every child at exactly `depth-1` makes the drawn depth the real depth. |
| `ArtExpr.WellBuiltNode` | recursive_art.py:46-62 | At drawn depth 1 the function is exactly `["x"]` or `["y"]`. Deeper, its head is one of the six building blocks with as many children as that block takes: `avg`/`prod` have exactly two children and the other four blocks exactly one. Every child has depth exactly `depth-1`. |
| `ArtEval.Apply` | recursive_art.py:93-108 | The operator dispatch: `x` and `y` select the first and second value, `avg` averages, `prod` multiplies, and the four trigonometric blocks apply `cos`/`sin` to `pi` or `pi**2` times the first value. It has no ensures of its own. What it promises is stated by `ApplyClosed` (closure over `[-1, 1]`) and `EvalBareOperator`. |
| `ArtEval.Eval` | recursive_art.py:93-117 | `evaluate_random_function` as written: a bare list applies its operator to `(x, y)`, any list with children applies it to the first child's value and `y`. It has no ensures of its own. Its meaning is stated by `EvalLeaf`, `EvalBareOperator`, `EvalUnaryNode`, `EvalBinaryNode` and `EvalClosed`. |
| `ArtEval.EvalIntended` | recursive_art.py:110-114 | The evaluation with the two-child test corrected: `avg` and `prod` apply their operator to the values of both children. It has no ensures of its own. Its meaning is stated by `EvalIntendedCombinesBoth`, `EvalIntendedClosed` and `EvalAgreesWithoutBinaryNodes`. |
| `ArtEval.EvalLeaf` | recursive_art.py:93-96 | `["x"]` evaluates to `x` and `["y"]` to `y`. |
| `ArtEval.EvalBareOperator` | recursive_art.py:97-108 | A bare operator list applies its operator to `(x, y)`: `["avg"]` gives `0.5*(x+y)` and `["prod"]` gives `x*y`. |
| `ArtEval.EvalUnaryNode` | recursive_art.py:115-117 | `cos_pi`, `sin_pi`, `cos_pi_squared` and `sin_pi_squared` apply `cos`/`sin` to `pi` or `pi**2` times the child's value. |
| `ArtEval.EvalBinaryNode` | recursive_art.py:110-117 | An `avg`/`prod` node with two children gives `op(eval(first child), y)`. Its second child does not affect the value. |
| `ArtEval.EvalExamples` | recursive_art.py:84-91 | The four doctests hold for any trigonometric pair with `cos 0 = 1`, `sin 0 = 0`: `-0.5`, `0.02`, `1.0` and `0.0`. |
| `ArtEval.ApplyClosed` | recursive_art.py:97-108 | Every operator, applied to two values of `[-1, 1]`, gives a value of `[-1, 1]`. |
| `ArtEval.EvalClosed` | recursive_art.py:66-117 | Closure: with bounded `cos`/`sin` and `x, y` in `[-1, 1]`, every function evaluates into `[-1, 1]`. This is the input contract of `color_map`. |
| `ArtEval.EvalDropsSecondChild` | recursive_art.py:110-114 | `["avg", ["x"], ["x"]]` at `(1, -1)` evaluates to `0`. With both children combined it would evaluate to `1`. |
| `ArtEval.EvalIntendedCombinesBoth` | recursive_art.py:110-114 | With the two-child test corrected, `avg` gives `0.5*(a+b)` and `prod` gives `a*b` over the values of both children. |
| `ArtEval.EvalIntendedClosed` | recursive_art.py:110-117 | The corrected evaluation is also closed over `[-1, 1]`. |
| `ArtEval.EvalAgreesWithoutBinaryNodes` | recursive_art.py:110-117 | The program's evaluation and the corrected one agree on every function without an `avg` or `prod` node. |
| `ArtColor.Remap` | recursive_art.py:151-155 | For a non-degenerate input interval, `in_start` maps to `out_start` and `in_end` to `out_end`. |
| `ArtColor.RemapRoundTrip` | recursive_art.py:120-155 | Remapping from `[a, b]` to `[c, d]` and back from `[c, d]` to `[a, b]` returns the original value. |
| `ArtColor.RemapLinear` | recursive_art.py:151-155 | Remapping preserves affine combinations, so it is linear between the endpoints. |
| `ArtColor.RemapWithin` | recursive_art.py:125-138 | For increasing intervals, a value of the input interval lands in the output interval. It lands strictly below the output end when it is strictly below the input end. |
| `ArtColor.RemapExamples` | recursive_art.py:140-149 | The five doctests: `5.0`, `1.0`, `1.5`, `-1.0` and `1.0`. |
| `ArtColor.Trunc` | recursive_art.py:176 | `int()` of a real drops the fractional part. A non-negative value gets the largest integer not above it. A negative value gets the smallest integer not below it. |
| `ArtColor.ColorMap` | recursive_art.py:158-176 | Every value of `[-1, 1]` maps to an integer of `[0, 255]`. |
| `ArtColor.ColorMapExamples` | recursive_art.py:165-172 | The four doctests: `-1 -> 0`, `1 -> 255`, `0 -> 127`, `0.5 -> 191`. |
| `ArtColor.ColorMapMonotone` | recursive_art.py:175-176 | A larger value never gets a smaller channel value. |
| `ArtColor.TruncMonotone` | recursive_art.py:176 | Truncation toward zero is monotone. |
| `ArtColor.PixelCoordinateInRange` | recursive_art.py:212-215 | A pixel index `0 <= i < size` remaps into `[-1, 1)`. The last pixel never reaches `1`. |
| `ArtPixel.PixelColor` | recursive_art.py:212-220 | The `(red, green, blue)` triple stored for pixel `(i, j)`: both indices are remapped from `[0, size]` to `[-1, 1]`, each channel's function is evaluated there with `Eval`, and the value goes through `color_map`. It has no ensures of its own. Its range is stated by `PixelColorInRange`. |
| `ArtPixel.PixelColorInRange` | recursive_art.py:212-220 | With bounded `cos`/`sin`, each of the three channel values stored for any pixel lies in `[0, 255]`, whatever the three random functions are. |

## Left out

- `test_image` and `generate_art` (recursive_art.py:179-222) are left out. They allocate the image, run the pixel loops and save a file, all of which is I/O. Only the value stored for one pixel is modelled (`ArtPixel.PixelColor`).
- The `doctest.testmod()` / `__main__` entry point is left out.
- `random.randint` is not modelled as a generator. Each draw is a free choice within its bounds. Uniformity, seeding and reproducibility under a fixed seed are outside the model.
- `ArtBuild.BuildRandomFunction` returns an `Fn` value. It does not mutate and return the Python list itself. Aliasing of that list plays no part in the program.
- `ArtBuild.BuildRandomFunction` requires `1 <= min_depth <= max_depth`. The program has no check of its own. `randint` raises when `min_depth > max_depth`. For `min_depth < 1`, a drawn depth below 1 never reaches the depth-1 case and recurses until Python raises `RecursionError`.
- `ArtColor.Remap` requires `in_start != in_end`. The program divides by zero there and raises `ZeroDivisionError`.
- Floating-point rounding is not modelled. The model computes over reals, so its statements are about exact arithmetic.
- `math.cos` and `math.sin` are not modelled. They are parameters constrained only by range and by their values at 0, so no statement is made about numeric accuracy.
- Unknown operator names and malformed lists, where Python raises `IndexError`, cannot be written as an `Fn`.
- `ArtEval.EvalIntended` is given an arbitrary fallback for an `avg`/`prod` node with fewer than two children. The corrected code would raise `IndexError` there. Built functions never have such a node.

## Findings

| source | as written | input that shows it | evidently intended | confidence | as-written member | corrected member |
|---|---|---|---|---|---|---|
| recursive_art.py:110-114 | `if([f[0]]) in requires_two_children` tests a one-element list against a list of strings. It is always false, so `avg` and `prod` take the one-child path: `op(eval(f[1]), y)`. | `["avg", ["x"], ["x"]]` at `x = 1, y = -1` gives `0.5 * (1 + -1) = 0`. | `f[0] in requires_two_children`: `avg(a, b) = 0.5 * (a + b)` over both children, as the docstring on lines 22-23 defines, giving `1`. | high (not executed) | `ArtEval.EvalDropsSecondChild` | `ArtEval.EvalIntendedCombinesBoth` |

`ArtEval.Eval` models what the program actually computes, and `ArtPixel`
uses it. `ArtEval.EvalIntended` models the corrected evaluation. The closure
over `[-1, 1]` is proved for both (`EvalClosed`, `EvalIntendedClosed`), so
the guarantee `color_map` needs holds either way.
