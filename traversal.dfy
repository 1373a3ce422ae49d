/** `Variable.backward` as a specification over values: one loop iteration
    is `Step`, the whole `while funcs` loop is `Run`, and `BackwardWalk` is
    the method from the seeding of the gradient on. `Engine.Arena.Backward`
    is proved to compute exactly `BackwardWalk`. */
module Traversal {
  import opened Base
  import opened Graph
  import opened Worklist
  import Ops

  /** The state of one `backward` call: the arena's variables, the worklist,
      the functions whose backward rule has been invoked so far (in order),
      and the exception that ended the call, if any. */
  datatype Walk = Walk(vars: seq<Variable>, queue: Queue, processed: seq<nat>, failure: Option<Error>)

  predicate Inv(funcs: seq<Function>, w: Walk)
  {
    Linked(w.vars, funcs) && QueueInv(funcs, w.queue)
  }

  /** The functions `add_func` could still insert. */
  function Unseen(funcs: seq<Function>, q: Queue): nat
  {
    |Below(|funcs|) - q.seen|
  }

  /** Lines 92-95: the first contribution is assigned, later ones are added;
      adding `None` to a gradient raises `TypeError`. */
  function Accumulated(grad: Option<int>, gx: Option<int>): (r: Result<Option<int>>)
    ensures r.Err? <==> grad.Some? && gx.None?
    ensures r.Err? ==> r.error == TypeError
    ensures grad.None? ==> r == Ok(gx)
    ensures grad.Some? && gx.Some? ==> r == Ok(Some(grad.value + gx.value))
  {
    if grad.None? then Ok(gx)
    else if gx.None? then Err(TypeError)
    else Ok(Some(grad.value + gx.value))
  }

  /** The `for x, gx in zip(f.inputs, gxs)` loop from pair `i` on. */
  function AccumulateFrom(funcs: seq<Function>, inputs: seq<nat>, gxs: seq<Option<int>>, i: nat, w: Walk): (r: Walk)
    requires Inv(funcs, w) && w.failure.None? && RefsIn(inputs, |w.vars|)
    decreases |inputs| - i
    ensures Inv(funcs, r) && SameStructure(w.vars, r.vars) && r.processed == w.processed
    ensures r.queue.seen >= w.queue.seen
    ensures r.queue.seen == w.queue.seen ==> r.queue.items == w.queue.items
  {
    if i >= |inputs| || i >= |gxs| then w
    else
      var n := AccumulatePair(funcs, inputs[i], gxs[i], w);
      if n.failure.Some? then n
      else AccumulateFrom(funcs, inputs, gxs, i + 1, n)
  }

  /** One more pass of the zip loop, while both lists last. */
  lemma AccumulateFromUnfold(funcs: seq<Function>, inputs: seq<nat>, gxs: seq<Option<int>>, i: nat, w: Walk)
    requires Inv(funcs, w) && w.failure.None? && RefsIn(inputs, |w.vars|)
    requires i < |inputs| && i < |gxs|
    ensures var n := AccumulatePair(funcs, inputs[i], gxs[i], w);
      AccumulateFrom(funcs, inputs, gxs, i, w) == if n.failure.Some? then n else AccumulateFrom(funcs, inputs, gxs, i + 1, n)
  {
  }

  /** The zip loop stops at the end of the shorter list. */
  lemma AccumulateFromDone(funcs: seq<Function>, inputs: seq<nat>, gxs: seq<Option<int>>, i: nat, w: Walk)
    requires Inv(funcs, w) && w.failure.None? && RefsIn(inputs, |w.vars|)
    requires i >= |inputs| || i >= |gxs|
    ensures AccumulateFrom(funcs, inputs, gxs, i, w) == w
  {
  }

  /** One pass of the loop body: accumulate `gx` into `x.grad` and, if `x`
      has a creator, `add_func(x.creator)`. An exception leaves the gradient
      already assigned in place. */
  function AccumulatePair(funcs: seq<Function>, x: nat, gx: Option<int>, w: Walk): (r: Walk)
    requires Inv(funcs, w) && w.failure.None? && x < |w.vars|
    ensures Inv(funcs, r) && SameStructure(w.vars, r.vars) && r.processed == w.processed
    ensures r.queue.seen >= w.queue.seen
    ensures r.queue.seen == w.queue.seen ==> r.queue.items == w.queue.items
    ensures forall g | g in r.queue.items && g !in w.queue.items ::
      g !in w.queue.seen && w.vars[x].creator == Some(g)
    ensures forall k | 0 <= k < |w.vars| && k != x :: r.vars[k] == w.vars[k]
    ensures w.vars[x].grad.Some? ==> r.vars[x].grad.Some?
    ensures Accumulated(w.vars[x].grad, gx).Ok? ==> r.vars[x].grad == Accumulated(w.vars[x].grad, gx).value
  {
    var g := Accumulated(w.vars[x].grad, gx);
    if g.Err? then w.(failure := Some(g.error))
    else
      var vars := w.vars[x := w.vars[x].(grad := g.value)];
      assert SameStructure(w.vars, vars);
      SameStructureKeepsShape(w.vars, vars, funcs);
      if vars[x].creator.None? then w.(vars := vars)
      else
        var a := AddFunc(funcs, w.queue, vars[x].creator);
        if a.Err? then w.(vars := vars, failure := Some(a.error))
        else w.(vars := vars, queue := a.value)
  }

  /** The loop from pair `i` on only enqueues unseen creators of the
      remaining inputs. */
  lemma {:induction false} AccumulateEnqueues(funcs: seq<Function>, inputs: seq<nat>, gxs: seq<Option<int>>, i: nat, w: Walk, r: Walk)
    requires Inv(funcs, w) && w.failure.None? && RefsIn(inputs, |w.vars|)
    requires r == AccumulateFrom(funcs, inputs, gxs, i, w)
    decreases |inputs| - i
    ensures forall g | g in r.queue.items && g !in w.queue.items ::
        g !in w.queue.seen && exists j | i <= j < |inputs| :: w.vars[inputs[j]].creator == Some(g)
  {
    if i < |inputs| && i < |gxs| {
      var n := AccumulatePair(funcs, inputs[i], gxs[i], w);
      if n.failure.None? {
        assert AccumulateFrom(funcs, inputs, gxs, i, w) == AccumulateFrom(funcs, inputs, gxs, i + 1, n);
        AccumulateEnqueues(funcs, inputs, gxs, i + 1, n, r);
      }
    }
  }

  /** The loop from pair `i` on only changes the remaining inputs. */
  lemma {:induction false} AccumulateTouches(funcs: seq<Function>, inputs: seq<nat>, gxs: seq<Option<int>>, i: nat, w: Walk, r: Walk)
    requires Inv(funcs, w) && w.failure.None? && RefsIn(inputs, |w.vars|)
    requires r == AccumulateFrom(funcs, inputs, gxs, i, w)
    decreases |inputs| - i
    ensures forall k | 0 <= k < |w.vars| && r.vars[k] != w.vars[k] :: exists j | i <= j < |inputs| :: inputs[j] == k
  {
    if i < |inputs| && i < |gxs| {
      var n := AccumulatePair(funcs, inputs[i], gxs[i], w);
      if n.failure.None? {
        assert AccumulateFrom(funcs, inputs, gxs, i, w) == AccumulateFrom(funcs, inputs, gxs, i + 1, n);
        AccumulateTouches(funcs, inputs, gxs, i + 1, n, r);
      }
    }
  }

  /** The loop from pair `i` on never takes a gradient away. */
  lemma {:induction false} AccumulateKeepsGrads(funcs: seq<Function>, inputs: seq<nat>, gxs: seq<Option<int>>, i: nat, w: Walk, r: Walk)
    requires Inv(funcs, w) && w.failure.None? && RefsIn(inputs, |w.vars|)
    requires r == AccumulateFrom(funcs, inputs, gxs, i, w)
    decreases |inputs| - i
    ensures forall k | 0 <= k < |w.vars| && w.vars[k].grad.Some? :: r.vars[k].grad.Some?
  {
    if i < |inputs| && i < |gxs| {
      var n := AccumulatePair(funcs, inputs[i], gxs[i], w);
      if n.failure.None? {
        assert AccumulateFrom(funcs, inputs, gxs, i, w) == AccumulateFrom(funcs, inputs, gxs, i + 1, n);
        AccumulateKeepsGrads(funcs, inputs, gxs, i + 1, n, r);
      }
    }
  }

  /** Lines 100-102: `y.cleargrad()` for each output `y`, in order. */
  function ClearGrads(vars: seq<Variable>, ys: seq<nat>): (r: seq<Variable>)
    requires RefsIn(ys, |vars|)
    decreases ys
    ensures SameStructure(vars, r)
    ensures forall k | 0 <= k < |vars| :: r[k].grad == if k in ys then None else vars[k].grad
  {
    if ys == [] then vars
    else ClearGrads(vars[ys[0] := vars[ys[0]].(grad := None)], ys[1..])
  }

  /** One iteration of the `while funcs` loop: pop the last (highest
      priority) function, run its backward rule on its outputs' gradients,
      accumulate into its inputs (enqueueing their creators), then clear the
      outputs' gradients unless `retain`. */
  function Step(funcs: seq<Function>, retain: bool, w: Walk): (r: Walk)
    requires Inv(funcs, w) && w.failure.None? && w.queue.items != []
    ensures Inv(funcs, r) && SameStructure(w.vars, r.vars)
    ensures r.processed == w.processed + [Last(w.queue.items)]
    ensures r.queue.seen >= w.queue.seen
    ensures Unseen(funcs, r.queue) < Unseen(funcs, w.queue)
            || (Unseen(funcs, r.queue) == Unseen(funcs, w.queue) && |r.queue.items| < |w.queue.items|)
  {
    PopKeepsInv(funcs, w.queue);
    var popped := Popped(w);
    var rec := funcs[Last(w.queue.items)].rec.value;
    var gxs := LocalGrads(funcs, w);
    if gxs.Err? then
      Progress(funcs, w.queue, popped.queue);
      popped.(failure := Some(gxs.error))
    else
      var a := AccumulateFrom(funcs, rec.inputs, gxs.value, 0, popped);
      Progress(funcs, w.queue, a.queue);
      if a.failure.Some? || retain then a
      else
        var cleared := ClearGrads(a.vars, rec.outputs);
        SameStructureKeepsShape(a.vars, cleared, funcs);
        SameStructureTrans(w.vars, a.vars, cleared);
        a.(vars := cleared)
  }

  /** An iteration that marks no new function seen has shortened the list. */
  lemma Progress(funcs: seq<Function>, q: Queue, q': Queue)
    requires QueueInv(funcs, q) && QueueInv(funcs, q') && q.items != []
    requires q'.seen >= q.seen
    requires q'.seen == q.seen ==> q'.items == q.items[..|q.items| - 1]
    ensures Unseen(funcs, q') < Unseen(funcs, q)
            || (Unseen(funcs, q') == Unseen(funcs, q) && |q'.items| < |q.items|)
  {
    if q'.seen != q.seen {
      assert q'.seen <= Below(|funcs|);
      FewerLeft(Below(|funcs|), q.seen, q'.seen);
    }
  }

  /** Line 85: `f = funcs.pop()`, recorded as processed. */
  function Popped(w: Walk): (r: Walk)
    requires w.queue.items != []
    ensures r.queue.items + [Last(w.queue.items)] == w.queue.items
    ensures r.processed == w.processed + [Last(w.queue.items)]
    ensures r.vars == w.vars && r.queue.seen == w.queue.seen && r.failure.None?
  {
    Walk(w.vars, w.queue.(items := w.queue.items[..|w.queue.items| - 1]),
         w.processed + [Last(w.queue.items)], None)
  }

  /** Lines 86-89: the popped function's backward rule applied to its
      outputs' gradients. */
  function LocalGrads(funcs: seq<Function>, w: Walk): (r: Result<seq<Option<int>>>)
    requires Inv(funcs, w) && w.queue.items != []
    ensures var f := Last(w.queue.items);
            |funcs[f].rec.value.outputs| != 1 ==> r == Err(TypeError)
    ensures r.Ok? ==> |r.value| == Ops.Arity(funcs[Last(w.queue.items)].op)
    ensures var f := Last(w.queue.items);
            var rec := funcs[f].rec.value;
            |rec.outputs| == 1 && w.vars[rec.outputs[0]].grad.Some?
            && (funcs[f].op == Ops.Add || |rec.inputs| > 0) ==>
              r.Ok? && forall i | 0 <= i < |r.value| :: r.value[i].Some?
  {
    var f := Last(w.queue.items);
    var rec := funcs[f].rec.value;
    Ops.LocalBackward(funcs[f].op, DataOf(w.vars, rec.inputs), GradsOf(w.vars, rec.outputs))
  }

  function Last(items: seq<nat>): nat
    requires items != []
  {
    items[|items| - 1]
  }

  /** The `while funcs` loop. It terminates: every iteration either inserts
      a function never seen before or shortens the worklist. */
  function Run(funcs: seq<Function>, retain: bool, w: Walk): (r: Walk)
    requires Inv(funcs, w)
    decreases Unseen(funcs, w.queue), |w.queue.items|
    ensures Inv(funcs, r) && SameStructure(w.vars, r.vars)
    ensures r.failure.None? ==> r.queue.items == []
    ensures w.processed <= r.processed && w.queue.seen <= r.queue.seen
  {
    if w.failure.Some? || w.queue.items == [] then w
    else Run(funcs, retain, Step(funcs, retain, w))
  }

  /** Lines 70-71: a missing gradient is seeded with ones. */
  function Seed(vars: seq<Variable>, v: nat): (r: seq<Variable>)
    requires v < |vars|
    ensures SameStructure(vars, r)
    ensures r[v].grad == if vars[v].grad.None? then Some(1) else vars[v].grad
    ensures forall k | 0 <= k < |vars| && k != v :: r[k] == vars[k]
  {
    if vars[v].grad.None? then vars[v := vars[v].(grad := Some(1))] else vars
  }

  /** `v.backward(retain_grad=retain)` on the arena: seed, `add_func(v.creator)`,
      then the loop. */
  function BackwardWalk(vars: seq<Variable>, funcs: seq<Function>, v: nat, retain: bool): (r: Walk)
    requires Linked(vars, funcs) && v < |vars|
    ensures SameStructure(vars, r.vars)
  {
    var seeded := Seed(vars, v);
    SameStructureKeepsShape(vars, seeded, funcs);
    var a := AddFunc(funcs, Empty, seeded[v].creator);
    if a.Err? then Walk(seeded, Empty, [], Some(a.error))
    else Run(funcs, retain, Walk(seeded, a.value, [], None))
  }
}
