/** The two concrete operations, `Square` and `Add`: their forward
    computation on raw values and their local backward rule on output
    gradients. Raw values are integer scalars. */
module Ops {
  import opened Base

  datatype Op = Square | Add

  /** The number of positional arguments `forward` takes. */
  function Arity(op: Op): nat
  {
    match op
    case Square => 1
    case Add => 2
  }

  /** `forward(*xs)`, with its single result already wrapped into a one-element
      tuple. A wrong number of arguments raises `TypeError`. */
  function Forward(op: Op, xs: seq<int>): (r: Result<seq<int>>)
    ensures r.Ok? <==> |xs| == Arity(op)
    ensures r.Err? ==> r.error == TypeError
    ensures r.Ok? ==> |r.value| == 1
  {
    if |xs| != Arity(op) then Err(TypeError)
    else match op
      case Square => Ok([xs[0] * xs[0]])
      case Add => Ok([xs[0] + xs[1]])
  }

  /** `backward(*gys)` given the raw values of the recorded inputs, with a
      non-tuple result wrapped into a one-element tuple. Both rules take one
      output gradient. `Square` reads `self.inputs[0]` and multiplies by the
      gradient, so it fails on an empty input list or a `None` gradient;
      `Add` hands the gradient, `None` included, to both inputs. */
  function LocalBackward(op: Op, xs: seq<int>, gys: seq<Option<int>>): (r: Result<seq<Option<int>>>)
    ensures |gys| != 1 ==> r == Err(TypeError)
    ensures op == Square && |gys| == 1 ==>
      (r.Ok? <==> |xs| > 0 && gys[0].Some?)
    ensures op == Add && |gys| == 1 ==> r == Ok([gys[0], gys[0]])
    ensures r.Ok? ==> |r.value| == |gys| * Arity(op)
    ensures r.Ok? && gys[0].Some? ==> forall i | 0 <= i < |r.value| :: r.value[i].Some?
  {
    if |gys| != 1 then Err(TypeError)
    else match op
      case Square =>
        if |xs| == 0 then Err(IndexError)
        else if gys[0].None? then Err(TypeError)
        else Ok([Some(2 * xs[0] * gys[0].value)])
      case Add => Ok([gys[0], gys[0]])
  }

  /** The first-order change of `forward` along a direction `hs`. */
  function Tangent(op: Op, xs: seq<int>, hs: seq<int>): int
    requires |xs| == |hs| == Arity(op)
  {
    match op
    case Square => 2 * xs[0] * hs[0]
    case Add => hs[0] + hs[1]
  }

  /** What is left of the change of `forward` after its first-order part. */
  function Remainder(op: Op, hs: seq<int>): int
    requires |hs| == Arity(op)
  {
    match op
    case Square => hs[0] * hs[0]
    case Add => 0
  }

  function Shift(xs: seq<int>, hs: seq<int>): (r: seq<int>)
    requires |xs| == |hs|
    ensures |r| == |xs|
  {
    seq(|xs|, i requires 0 <= i < |xs| => xs[i] + hs[i])
  }

  /** Pairs gradients with a direction: the sum of the products of matching entries. */
  function Dot(gs: seq<Option<int>>, hs: seq<int>): int
    requires |gs| == |hs|
    requires forall i | 0 <= i < |gs| :: gs[i].Some?
  {
    if gs == [] then 0 else gs[0].value * hs[0] + Dot(gs[1..], hs[1..])
  }

  /** The local backward rule is the vector-Jacobian product of `forward`:
      for every output gradient `gy` and every direction `hs`, moving the
      inputs by `hs` changes the output by the first-order term plus the
      remainder, and the gradients `backward` returns, paired with `hs`, give
      exactly `gy` times that first-order term. */
  lemma {:induction false} BackwardIsVectorJacobianProduct(op: Op, xs: seq<int>, hs: seq<int>, gy: int)
    requires |xs| == |hs| == Arity(op)
    ensures Forward(op, xs).Ok? && Forward(op, Shift(xs, hs)).Ok?
    ensures Forward(op, Shift(xs, hs)).value[0] - Forward(op, xs).value[0]
            == Tangent(op, xs, hs) + Remainder(op, hs)
    ensures LocalBackward(op, xs, [Some(gy)]).Ok?
    ensures var gxs := LocalBackward(op, xs, [Some(gy)]).value;
            |gxs| == |hs| && Dot(gxs, hs) == gy * Tangent(op, xs, hs)
  {
    var ys := Shift(xs, hs);
    var gxs := LocalBackward(op, xs, [Some(gy)]).value;
    match op
    case Square =>
      var x, h := xs[0], hs[0];
      assert ys[0] == x + h;
      calc {
        (x + h) * (x + h) - x * x;
        { assert (x + h) * (x + h) == x * x + 2 * x * h + h * h; }
        2 * x * h + h * h;
      }
      assert Dot(gxs, hs) == 2 * x * gy * h + Dot(gxs[1..], hs[1..]);
      assert 2 * x * gy * h == gy * (2 * x * h);
    case Add =>
      assert ys[0] == xs[0] + hs[0] && ys[1] == xs[1] + hs[1];
      assert Dot(gxs, hs) == gy * hs[0] + (gy * hs[1] + Dot(gxs[2..], hs[2..]));
      assert gy * hs[0] + gy * hs[1] == gy * (hs[0] + hs[1]);
  }
}
