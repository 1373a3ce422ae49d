/** What `Variable.backward` guarantees, proved about `Traversal.BackwardWalk`:
    every function's backward rule runs at most once, functions run in
    non-increasing priority order, contributions to one input are summed,
    on well-formed graphs the traversal never raises and processes exactly
    the functions reachable from the start, without `retain_grad` every
    intermediate gradient ends cleared while leaves keep theirs, and with
    it no gradient is removed. */
module Properties {
  import opened Base
  import opened Graph
  import opened Worklist
  import opened Traversal
  import Ops

  // ---------------------------------------------------------------------
  // Each function's backward rule is invoked at most once.

  /** Processed functions are distinct, were all inserted once, and are no
      longer on the worklist. */
  predicate Ledger(w: Walk)
  {
    Distinct(w.processed)
    && (forall i | 0 <= i < |w.processed| :: w.processed[i] in w.queue.seen)
    && (forall i, j | 0 <= i < |w.processed| && 0 <= j < |w.queue.items| ::
          w.processed[i] != w.queue.items[j])
  }

  lemma PopLedger(funcs: seq<Function>, w: Walk)
    requires Inv(funcs, w) && w.queue.items != [] && Ledger(w)
    ensures Ledger(Popped(w))
  {
    var n := |w.queue.items|;
    var f := w.queue.items[n - 1];
    var p := Popped(w);
    forall i | 0 <= i < |w.processed| ensures w.processed[i] != f {
      assert f == w.queue.items[n - 1];
    }
    forall i, j | 0 <= i < |p.processed| && 0 <= j < |p.queue.items|
      ensures p.processed[i] != p.queue.items[j]
    {
      assert p.queue.items[j] == w.queue.items[j];
    }
  }

  lemma AccumulateLedger(funcs: seq<Function>, inputs: seq<nat>, gxs: seq<Option<int>>, p: Walk)
    requires Inv(funcs, p) && p.failure.None? && RefsIn(inputs, |p.vars|) && Ledger(p)
    ensures Ledger(AccumulateFrom(funcs, inputs, gxs, 0, p))
  {
    var a := AccumulateFrom(funcs, inputs, gxs, 0, p);
    AccumulateEnqueues(funcs, inputs, gxs, 0, p, a);
    forall i, j | 0 <= i < |a.processed| && 0 <= j < |a.queue.items|
      ensures a.processed[i] != a.queue.items[j]
    {
      var g := a.queue.items[j];
      if g !in p.queue.items {
        assert g !in p.queue.seen;
      } else {
        var j' :| 0 <= j' < |p.queue.items| && p.queue.items[j'] == g;
      }
    }
  }

  lemma StepLedger(funcs: seq<Function>, retain: bool, w: Walk)
    requires Inv(funcs, w) && w.failure.None? && w.queue.items != []
    requires Ledger(w)
    ensures Ledger(Step(funcs, retain, w))
  {
    PopKeepsInv(funcs, w.queue);
    PopLedger(funcs, w);
    var rec := funcs[Last(w.queue.items)].rec.value;
    var gxs := LocalGrads(funcs, w);
    if gxs.Ok? {
      AccumulateLedger(funcs, rec.inputs, gxs.value, Popped(w));
    }
  }

  lemma {:induction false} RunLedger(funcs: seq<Function>, retain: bool, w: Walk)
    requires Inv(funcs, w) && Ledger(w)
    ensures Ledger(Run(funcs, retain, w))
    decreases Unseen(funcs, w.queue), |w.queue.items|
  {
    if w.failure.None? && w.queue.items != [] {
      StepLedger(funcs, retain, w);
      RunLedger(funcs, retain, Step(funcs, retain, w));
    }
  }

  /** `seen_set` keeps `add_func` from inserting a function twice, so one
      `backward` call invokes each function's backward rule at most once,
      only functions reachable from `v` are invoked, and the loop runs at
      most as many iterations as there are such functions. */
  lemma BackwardInvokesEachOnce(vars: seq<Variable>, funcs: seq<Function>, v: nat, retain: bool)
    requires Linked(vars, funcs) && v < |vars|
    ensures var r := BackwardWalk(vars, funcs, v, retain);
            Distinct(r.processed) && RefsIn(r.processed, |funcs|)
            && (forall i | 0 <= i < |r.processed| :: r.processed[i] in Reachable(vars, funcs, v))
            && |r.processed| <= |Reachable(vars, funcs, v)|
  {
    var seeded := Seed(vars, v);
    SameStructureKeepsShape(vars, seeded, funcs);
    var a := AddFunc(funcs, Empty, seeded[v].creator);
    if a.Ok? {
      var w := Walk(seeded, a.value, [], None);
      RunLedger(funcs, retain, w);
      var r := Run(funcs, retain, w);
      assert RefsIn(r.processed, |funcs|) by {
        forall i | 0 <= i < |r.processed| ensures r.processed[i] < |funcs| {
          assert r.processed[i] in r.queue.seen;
        }
      }
      var c := seeded[v].creator.value;
      assert a.value.items == [c];
      assert Reaches(vars, funcs, v, c) by {
        assert Chain(vars, funcs, [c]);
      }
      RunFromStart(vars, funcs, v, retain, w);
      DistinctWithin(r.processed, Reachable(vars, funcs, v));
    }
  }

  // ---------------------------------------------------------------------
  // Functions are processed in non-increasing priority order.

  /** Processed functions have non-increasing priorities, and nothing on the
      worklist has a higher priority than any processed function. */
  predicate Ordered(funcs: seq<Function>, w: Walk)
  {
    Keyed(funcs, w.processed) && Keyed(funcs, w.queue.items)
    && (forall i, j | 0 <= i < j < |w.processed| ::
          Priority(funcs, w.processed[j]) <= Priority(funcs, w.processed[i]))
    && (forall i, j | 0 <= i < |w.processed| && 0 <= j < |w.queue.items| ::
          Priority(funcs, w.queue.items[j]) <= Priority(funcs, w.processed[i]))
  }

  /** On a well-formed graph the creator of an input of `f` has a strictly
      lower priority than `f`. */
  lemma CreatorBelow(vars: seq<Variable>, funcs: seq<Function>, f: nat, j: nat, g: nat)
    requires WellFormed(vars, funcs) && f < |funcs| && funcs[f].rec.Some?
    requires j < |funcs[f].rec.value.inputs|
    requires vars[funcs[f].rec.value.inputs[j]].creator == Some(g)
    ensures g < |funcs| && funcs[g].rec.Some?
    ensures Priority(funcs, g) < Priority(funcs, f)
  {
    var x := funcs[f].rec.value.inputs[j];
    assert CreatorLinked(vars, funcs, x);
    assert RecordLinked(vars, funcs, f);
  }

  lemma PopOrdered(funcs: seq<Function>, w: Walk)
    requires Inv(funcs, w) && w.queue.items != [] && Ordered(funcs, w)
    ensures Ordered(funcs, Popped(w))
  {
    var n := |w.queue.items|;
    var f := w.queue.items[n - 1];
    var p := Popped(w);
    PopTakesMax(funcs, w.queue);
    assert Keyed(funcs, p.processed) && Keyed(funcs, p.queue.items);
    PoppedBelow(funcs, w, f, p.processed, p.queue.items);
  }

  /** The popped `f`, at least as high as everything still listed and at
      most as high as anything processed before, keeps both orders. */
  lemma PoppedBelow(funcs: seq<Function>, w: Walk, f: nat, processed: seq<nat>, items: seq<nat>)
    requires Inv(funcs, w) && w.queue.items != [] && Ordered(funcs, w)
    requires f == Last(w.queue.items) && processed == w.processed + [f]
    requires items == w.queue.items[..|w.queue.items| - 1]
    requires forall g | g in w.queue.items :: Priority(funcs, g) <= Priority(funcs, f)
    requires Keyed(funcs, processed) && Keyed(funcs, items)
    ensures forall i, j | 0 <= i < |processed| && 0 <= j < |items| ::
      Priority(funcs, items[j]) <= Priority(funcs, processed[i])
    ensures forall i, j | 0 <= i < j < |processed| ::
      Priority(funcs, processed[j]) <= Priority(funcs, processed[i])
  {
    forall i, j | 0 <= i < |processed| && 0 <= j < |items|
      ensures Priority(funcs, items[j]) <= Priority(funcs, processed[i])
    {
      assert items[j] == w.queue.items[j];
      assert Priority(funcs, w.queue.items[j]) <= Priority(funcs, f);
      if i < |w.processed| {
        assert processed[i] == w.processed[i];
        assert Priority(funcs, f) <= Priority(funcs, w.processed[i]);
      }
    }
    forall i, j | 0 <= i < j < |processed|
      ensures Priority(funcs, processed[j]) <= Priority(funcs, processed[i])
    {
      assert processed[i] == w.processed[i];
      if j == |w.processed| {
        assert Priority(funcs, f) <= Priority(funcs, w.processed[i]);
      } else {
        assert processed[j] == w.processed[j];
      }
    }
  }

  /** Accumulating into the inputs of `f`, the last processed function, only
      enqueues functions of lower priority than `f`. */
  lemma AccumulateOrdered(funcs: seq<Function>, f: nat, gxs: seq<Option<int>>, p: Walk)
    requires Inv(funcs, p) && p.failure.None? && WellFormed(p.vars, funcs) && Ordered(funcs, p)
    requires f < |funcs| && funcs[f].rec.Some? && p.processed != [] && Last(p.processed) == f
    ensures Ordered(funcs, AccumulateFrom(funcs, funcs[f].rec.value.inputs, gxs, 0, p))
  {
    var inputs := funcs[f].rec.value.inputs;
    var a := AccumulateFrom(funcs, inputs, gxs, 0, p);
    AccumulateEnqueues(funcs, inputs, gxs, 0, p, a);
    forall g | g in a.queue.items && g !in p.queue.items
      ensures Priority(funcs, g) < Priority(funcs, f)
    {
      var k :| 0 <= k < |inputs| && p.vars[inputs[k]].creator == Some(g);
      CreatorBelow(p.vars, funcs, f, k, g);
    }
    EnqueueOrdered(funcs, f, p, a);
  }

  /** Enqueueing only functions below the last processed one keeps the
      order. */
  lemma EnqueueOrdered(funcs: seq<Function>, f: nat, p: Walk, a: Walk)
    requires Ordered(funcs, p) && p.processed != [] && Last(p.processed) == f
    requires a.processed == p.processed && Keyed(funcs, a.queue.items)
    requires forall g | g in a.queue.items && g !in p.queue.items :: Priority(funcs, g) < Priority(funcs, f)
    ensures Ordered(funcs, a)
  {
    forall i, j | 0 <= i < |a.processed| && 0 <= j < |a.queue.items|
      ensures Priority(funcs, a.queue.items[j]) <= Priority(funcs, a.processed[i])
    {
      var g := a.queue.items[j];
      if g !in p.queue.items {
        assert g in a.queue.items;
        if i < |p.processed| - 1 {
          assert Priority(funcs, p.processed[|p.processed| - 1]) <= Priority(funcs, p.processed[i]);
        }
      } else {
        var j' :| 0 <= j' < |p.queue.items| && p.queue.items[j'] == g;
      }
    }
  }

  lemma StepOrdered(funcs: seq<Function>, retain: bool, w: Walk)
    requires Inv(funcs, w) && w.failure.None? && w.queue.items != []
    requires WellFormed(w.vars, funcs) && Ordered(funcs, w)
    ensures Ordered(funcs, Step(funcs, retain, w))
  {
    PopKeepsInv(funcs, w.queue);
    PopOrdered(funcs, w);
    var f := Last(w.queue.items);
    var gxs := LocalGrads(funcs, w);
    if gxs.Ok? {
      AccumulateOrdered(funcs, f, gxs.value, Popped(w));
    }
  }

  lemma {:induction false} RunOrdered(funcs: seq<Function>, retain: bool, w: Walk)
    requires Inv(funcs, w) && WellFormed(w.vars, funcs) && Ordered(funcs, w)
    ensures Ordered(funcs, Run(funcs, retain, w))
    decreases Unseen(funcs, w.queue), |w.queue.items|
  {
    if w.failure.None? && w.queue.items != [] {
      StepOrdered(funcs, retain, w);
      var s := Step(funcs, retain, w);
      SameStructureKeepsShape(w.vars, s.vars, funcs);
      RunOrdered(funcs, retain, s);
    }
  }

  /** Because the worklist is sorted and `pop()` takes its last element, and
      because a creator always sits below the functions that consume its
      outputs, a well-formed graph is traversed in non-increasing priority
      order: a function is only processed after every function of higher
      priority that could still add to its outputs' gradients. */
  lemma BackwardInPriorityOrder(vars: seq<Variable>, funcs: seq<Function>, v: nat, retain: bool)
    requires WellFormed(vars, funcs) && v < |vars|
    ensures var r := BackwardWalk(vars, funcs, v, retain);
            Keyed(funcs, r.processed)
            && forall i, j | 0 <= i < j < |r.processed| ::
                 Priority(funcs, r.processed[j]) <= Priority(funcs, r.processed[i])
  {
    var seeded := Seed(vars, v);
    SameStructureKeepsShape(vars, seeded, funcs);
    var a := AddFunc(funcs, Empty, seeded[v].creator);
    if a.Ok? {
      RunOrdered(funcs, retain, Walk(seeded, a.value, [], None));
    }
  }

  // ---------------------------------------------------------------------
  // Without retain_grad, processed outputs end cleared; leaves keep theirs.

  predicate OutputsCleared(vars: seq<Variable>, funcs: seq<Function>, f: nat)
    requires Linked(vars, funcs) && f < |funcs| && funcs[f].rec.Some?
  {
    forall k | 0 <= k < |funcs[f].rec.value.outputs| :: vars[funcs[f].rec.value.outputs[k]].grad.None?
  }

  predicate Cleared(funcs: seq<Function>, w: Walk)
    requires Linked(w.vars, funcs) && Keyed(funcs, w.processed)
  {
    forall i | 0 <= i < |w.processed| :: OutputsCleared(w.vars, funcs, w.processed[i])
  }

  /** A gradient of a leaf that is set stays set. */
  predicate LeavesKept(before: seq<Variable>, after: seq<Variable>)
    requires |before| == |after|
  {
    forall x | 0 <= x < |before| && before[x].creator.None? && before[x].grad.Some? ::
      after[x].grad.Some?
  }

  /** An output of a processed function is never an input of a function that
      is still to be processed: it sits strictly above it in priority. */
  lemma OutputNotLaterInput(vars: seq<Variable>, funcs: seq<Function>, p: nat, k: nat, f: nat)
    requires WellFormed(vars, funcs)
    requires p < |funcs| && funcs[p].rec.Some? && k < |funcs[p].rec.value.outputs|
    requires f < |funcs| && funcs[f].rec.Some?
    requires Priority(funcs, f) <= Priority(funcs, p)
    ensures funcs[p].rec.value.outputs[k] !in funcs[f].rec.value.inputs
  {
    var o := funcs[p].rec.value.outputs[k];
    assert RecordLinked(vars, funcs, p);
    assert CreatorLinked(vars, funcs, o);
    assert RecordLinked(vars, funcs, f);
  }

  /** A leaf is no function's output. */
  lemma LeafNotOutput(vars: seq<Variable>, funcs: seq<Function>, f: nat, x: nat)
    requires WellFormed(vars, funcs) && f < |funcs| && funcs[f].rec.Some?
    requires x < |vars| && vars[x].creator.None?
    ensures x !in funcs[f].rec.value.outputs
  {
    assert RecordLinked(vars, funcs, f);
  }

  lemma StepCleared(funcs: seq<Function>, w: Walk)
    requires Inv(funcs, w) && w.failure.None? && w.queue.items != []
    requires WellFormed(w.vars, funcs) && Ordered(funcs, w) && Cleared(funcs, w)
    ensures var r := Step(funcs, false, w);
            Keyed(funcs, r.processed) && (r.failure.None? ==> Cleared(funcs, r))
  {
    var f := Last(w.queue.items);
    var r := Step(funcs, false, w);
    KeyedAppend(funcs, w.processed, f);
    assert Keyed(funcs, r.processed);
    PopKeepsInv(funcs, w.queue);
    var popped := Popped(w);
    var rec := funcs[f].rec.value;
    var gxs := LocalGrads(funcs, w);
    if gxs.Ok? {
      var a := AccumulateFrom(funcs, rec.inputs, gxs.value, 0, popped);
      AccumulateTouches(funcs, rec.inputs, gxs.value, 0, popped, a);
      if a.failure.None? {
        var cleared := ClearGrads(a.vars, rec.outputs);
        assert r == a.(vars := cleared);
        ClearedAfterStep(funcs, w, f, a, cleared);
      }
    }
  }

  lemma KeyedAppend(funcs: seq<Function>, xs: seq<nat>, f: nat)
    requires Keyed(funcs, xs) && f < |funcs| && funcs[f].rec.Some?
    ensures Keyed(funcs, xs + [f])
  {
  }

  /** The clearing half of `StepCleared`: `f`, the function just
      processed, has its outputs cleared, and every function processed
      before it keeps its outputs cleared. */
  lemma ClearedAfterStep(funcs: seq<Function>, w: Walk, f: nat, a: Walk, cleared: seq<Variable>)
    requires WellFormed(w.vars, funcs) && Ordered(funcs, w) && Cleared(funcs, w)
    requires w.queue.items != [] && f == Last(w.queue.items) && funcs[f].rec.Some?
    requires a.processed == w.processed + [f] && |a.vars| == |w.vars|
    requires forall k | 0 <= k < |w.vars| && a.vars[k] != w.vars[k] ::
               exists j | 0 <= j < |funcs[f].rec.value.inputs| :: funcs[f].rec.value.inputs[j] == k
    requires |cleared| == |w.vars| && Linked(cleared, funcs)
    requires forall k | 0 <= k < |w.vars| :: cleared[k].grad == if k in funcs[f].rec.value.outputs then None else a.vars[k].grad
    ensures Keyed(funcs, a.processed)
    ensures forall i | 0 <= i < |a.processed| :: OutputsCleared(cleared, funcs, a.processed[i])
  {
    forall i | 0 <= i < |a.processed|
      ensures OutputsCleared(cleared, funcs, a.processed[i])
    {
      if i < |w.processed| {
        var p := a.processed[i];
        assert p == w.processed[i];
        assert Priority(funcs, f) <= Priority(funcs, p);
        StaysCleared(w.vars, a.vars, cleared, funcs, f, p);
      }
    }
  }

  /** A step never takes a gradient away from a leaf: leaves are no
      function's output, so clearing skips them. */
  lemma StepKeepsLeaves(funcs: seq<Function>, retain: bool, w: Walk)
    requires Inv(funcs, w) && w.failure.None? && w.queue.items != [] && WellFormed(w.vars, funcs)
    ensures LeavesKept(w.vars, Step(funcs, retain, w).vars)
  {
    var f := Last(w.queue.items);
    PopKeepsInv(funcs, w.queue);
    var popped := Popped(w);
    var rec := funcs[f].rec.value;
    var gxs := LocalGrads(funcs, w);
    if gxs.Ok? {
      var a := AccumulateFrom(funcs, rec.inputs, gxs.value, 0, popped);
      AccumulateKeepsGrads(funcs, rec.inputs, gxs.value, 0, popped, a);
      var r := Step(funcs, retain, w);
      forall x | 0 <= x < |w.vars| && w.vars[x].creator.None? && w.vars[x].grad.Some?
        ensures r.vars[x].grad.Some?
      {
        LeafNotOutput(w.vars, funcs, f, x);
      }
    }
  }

  /** The outputs of an earlier processed function `p` stay cleared while `f`
      is processed: only inputs of `f` change, and none of them is an output
      of `p`. */
  lemma StaysCleared(vars: seq<Variable>, accumulated: seq<Variable>, cleared: seq<Variable>,
                     funcs: seq<Function>, f: nat, p: nat)
    requires WellFormed(vars, funcs) && |accumulated| == |vars| && |cleared| == |vars|
    requires f < |funcs| && funcs[f].rec.Some? && p < |funcs| && funcs[p].rec.Some?
    requires Priority(funcs, f) <= Priority(funcs, p) && OutputsCleared(vars, funcs, p)
    requires forall k | 0 <= k < |vars| && accumulated[k] != vars[k] ::
               exists j | 0 <= j < |funcs[f].rec.value.inputs| :: funcs[f].rec.value.inputs[j] == k
    requires forall k | 0 <= k < |vars| :: cleared[k].grad == if k in funcs[f].rec.value.outputs then None else accumulated[k].grad
    ensures Linked(cleared, funcs) ==> OutputsCleared(cleared, funcs, p)
  {
    forall k | 0 <= k < |funcs[p].rec.value.outputs|
      ensures cleared[funcs[p].rec.value.outputs[k]].grad.None?
    {
      var o := funcs[p].rec.value.outputs[k];
      assert vars[o].grad.None?;
      OutputNotLaterInput(vars, funcs, p, k, f);
    }
  }

  lemma {:induction false} RunCleared(funcs: seq<Function>, w: Walk)
    requires Inv(funcs, w) && WellFormed(w.vars, funcs) && Ordered(funcs, w) && Cleared(funcs, w)
    ensures var r := Run(funcs, false, w);
            Keyed(funcs, r.processed) && LeavesKept(w.vars, r.vars)
            && (r.failure.None? ==> Cleared(funcs, r))
    decreases Unseen(funcs, w.queue), |w.queue.items|
  {
    if w.failure.None? && w.queue.items != [] {
      var s := Step(funcs, false, w);
      StepCleared(funcs, w);
      StepKeepsLeaves(funcs, false, w);
      StepOrdered(funcs, false, w);
      SameStructureKeepsShape(w.vars, s.vars, funcs);
      if s.failure.None? {
        RunCleared(funcs, s);
        var r := Run(funcs, false, s);
        assert LeavesKept(w.vars, r.vars) by {
          forall x | 0 <= x < |w.vars| && w.vars[x].creator.None? && w.vars[x].grad.Some?
            ensures r.vars[x].grad.Some?
          {
            assert w.vars[x].(grad := None) == s.vars[x].(grad := None);
            assert s.vars[x].creator.None?;
          }
        }
      }
    }
  }

  /** The first function the loop processes is the last listed one. */
  lemma RunFirst(funcs: seq<Function>, retain: bool, w: Walk)
    requires Inv(funcs, w) && w.failure.None? && w.queue.items != []
    ensures var r := Run(funcs, retain, w);
            |w.processed| < |r.processed| && r.processed[|w.processed|] == Last(w.queue.items)
  {
    var s := Step(funcs, retain, w);
    assert Run(funcs, retain, w) == Run(funcs, retain, s);
    assert s.processed[|w.processed|] == Last(w.queue.items);
  }

  /** With `retain_grad=False`, a successful `backward` leaves every output
      of every processed function, the starting variable included, without a
      gradient. */
  lemma BackwardClearsIntermediateGrads(vars: seq<Variable>, funcs: seq<Function>, v: nat)
    requires WellFormed(vars, funcs) && v < |vars|
    ensures var r := BackwardWalk(vars, funcs, v, false);
            Keyed(funcs, r.processed)
            && (r.failure.None? ==> Cleared(funcs, r) && r.vars[v].grad.None?)
  {
    var seeded := Seed(vars, v);
    SameStructureKeepsShape(vars, seeded, funcs);
    var a := AddFunc(funcs, Empty, seeded[v].creator);
    var r := BackwardWalk(vars, funcs, v, false);
    if a.Ok? {
      var c := seeded[v].creator.value;
      var w := Walk(seeded, a.value, [], None);
      assert a.value.items == [c];
      RunCleared(funcs, w);
      RunFirst(funcs, false, w);
      assert r == Run(funcs, false, w);
      if r.failure.None? {
        assert CreatorLinked(vars, funcs, v);
        var k :| 0 <= k < |funcs[c].rec.value.outputs| && funcs[c].rec.value.outputs[k] == v;
        assert OutputsCleared(r.vars, funcs, r.processed[0]);
      }
    } else {
      assert r.processed == [];
    }
  }

  /** With `retain_grad=False`, a leaf whose gradient was set keeps it,
      whether or not the call raises. */
  lemma BackwardKeepsLeafGrads(vars: seq<Variable>, funcs: seq<Function>, v: nat)
    requires WellFormed(vars, funcs) && v < |vars|
    ensures LeavesKept(vars, BackwardWalk(vars, funcs, v, false).vars)
  {
    var seeded := Seed(vars, v);
    SameStructureKeepsShape(vars, seeded, funcs);
    var a := AddFunc(funcs, Empty, seeded[v].creator);
    var r := BackwardWalk(vars, funcs, v, false);
    if a.Ok? {
      var w := Walk(seeded, a.value, [], None);
      RunCleared(funcs, w);
      assert r == Run(funcs, false, w);
      forall x | 0 <= x < |vars| && vars[x].creator.None? && vars[x].grad.Some?
        ensures r.vars[x].grad.Some?
      {
        assert seeded[x].grad.Some? && seeded[x].creator.None?;
      }
    } else {
      assert r.vars == seeded;
    }
  }

  /** With `retain_grad=True` line 100 skips the clearing, so an iteration
      takes no gradient away. */
  lemma StepRetains(funcs: seq<Function>, w: Walk)
    requires Inv(funcs, w) && w.failure.None? && w.queue.items != []
    ensures var r := Step(funcs, true, w);
            forall k | 0 <= k < |w.vars| && w.vars[k].grad.Some? :: r.vars[k].grad.Some?
  {
    PopKeepsInv(funcs, w.queue);
    var gxs := LocalGrads(funcs, w);
    if gxs.Ok? {
      var inputs := funcs[Last(w.queue.items)].rec.value.inputs;
      var a := AccumulateFrom(funcs, inputs, gxs.value, 0, Popped(w));
      AccumulateKeepsGrads(funcs, inputs, gxs.value, 0, Popped(w), a);
      assert Step(funcs, true, w) == a;
    }
  }

  lemma {:induction false} RunRetains(funcs: seq<Function>, w: Walk)
    requires Inv(funcs, w)
    ensures var r := Run(funcs, true, w);
            forall k | 0 <= k < |w.vars| && w.vars[k].grad.Some? :: r.vars[k].grad.Some?
    decreases Unseen(funcs, w.queue), |w.queue.items|
  {
    if w.failure.None? && w.queue.items != [] {
      StepRetains(funcs, w);
      RunRetains(funcs, Step(funcs, true, w));
    }
  }

  /** With `retain_grad=True` no gradient is removed: every variable that had
      a gradient, and `v` with its seed, still has one, whether or not the
      call raises. */
  lemma BackwardRetainsGrads(vars: seq<Variable>, funcs: seq<Function>, v: nat)
    requires Linked(vars, funcs) && v < |vars|
    ensures var r := BackwardWalk(vars, funcs, v, true);
            r.vars[v].grad.Some?
            && forall k | 0 <= k < |vars| && vars[k].grad.Some? :: r.vars[k].grad.Some?
  {
    var seeded := Seed(vars, v);
    SameStructureKeepsShape(vars, seeded, funcs);
    var a := AddFunc(funcs, Empty, seeded[v].creator);
    if a.Ok? {
      var w := Walk(seeded, a.value, [], None);
      RunRetains(funcs, w);
      assert BackwardWalk(vars, funcs, v, true) == Run(funcs, true, w);
    }
  }

  // ---------------------------------------------------------------------
  // On a well-formed graph the traversal from a non-leaf never raises.

  /** Every function on the worklist has a gradient on each of its outputs
      (line 86 reads them). */
  predicate Ready(funcs: seq<Function>, w: Walk)
    requires Inv(funcs, w)
  {
    forall j | 0 <= j < |w.queue.items| :: OutputsSet(w.vars, funcs, w.queue.items[j])
  }

  predicate OutputsSet(vars: seq<Variable>, funcs: seq<Function>, f: nat)
    requires Linked(vars, funcs) && f < |funcs| && funcs[f].rec.Some?
  {
    forall k | 0 <= k < |funcs[f].rec.value.outputs| :: vars[funcs[f].rec.value.outputs[k]].grad.Some?
  }

  /** Every creator in the arena has a `priority` attribute. */
  predicate CreatorsRecorded(vars: seq<Variable>, funcs: seq<Function>)
    requires Linked(vars, funcs)
  {
    forall v | 0 <= v < |vars| && vars[v].creator.Some? :: funcs[vars[v].creator.value].rec.Some?
  }

  lemma WellFormedRecorded(vars: seq<Variable>, funcs: seq<Function>)
    requires WellFormed(vars, funcs)
    ensures CreatorsRecorded(vars, funcs)
  {
    forall v | 0 <= v < |vars| && vars[v].creator.Some?
      ensures funcs[vars[v].creator.value].rec.Some?
    {
      assert CreatorLinked(vars, funcs, v);
    }
  }

  lemma {:induction false} AccumulateSucceeds(funcs: seq<Function>, inputs: seq<nat>, gxs: seq<Option<int>>, i: nat, w: Walk)
    requires Inv(funcs, w) && w.failure.None? && RefsIn(inputs, |w.vars|) && CreatorsRecorded(w.vars, funcs)
    requires forall j | 0 <= j < |gxs| :: gxs[j].Some?
    decreases |inputs| - i
    ensures AccumulateFrom(funcs, inputs, gxs, i, w).failure.None?
  {
    if i < |inputs| && i < |gxs| {
      var x := inputs[i];
      PairSucceeds(funcs, x, gxs[i], w);
      var n := AccumulatePair(funcs, x, gxs[i], w);
      assert CreatorsRecorded(n.vars, funcs) by {
        assert forall k | 0 <= k < |w.vars| :: n.vars[k].creator == w.vars[k].creator by {
          forall k | 0 <= k < |w.vars| ensures n.vars[k].creator == w.vars[k].creator {
            assert n.vars[k].(grad := None).creator == w.vars[k].(grad := None).creator;
          }
        }
      }
      assert AccumulateFrom(funcs, inputs, gxs, i, w) == AccumulateFrom(funcs, inputs, gxs, i + 1, n);
      AccumulateSucceeds(funcs, inputs, gxs, i + 1, n);
    }
  }

  /** A successful accumulation of present contributions leaves input `j`
      with a gradient. */
  lemma {:induction false} AccumulateSetsGrad(funcs: seq<Function>, inputs: seq<nat>, gxs: seq<Option<int>>, i: nat, w: Walk, r: Walk, j: nat)
    requires Inv(funcs, w) && w.failure.None? && RefsIn(inputs, |w.vars|)
    requires forall j | 0 <= j < |gxs| :: gxs[j].Some?
    requires r == AccumulateFrom(funcs, inputs, gxs, i, w) && r.failure.None?
    requires i <= j < |inputs| && j < |gxs|
    decreases |inputs| - i
    ensures r.vars[inputs[j]].grad.Some?
  {
    var n := AccumulatePair(funcs, inputs[i], gxs[i], w);
    assert r == AccumulateFrom(funcs, inputs, gxs, i + 1, n);
    if j == i {
      AccumulateKeepsGrads(funcs, inputs, gxs, i + 1, n, r);
      assert n.vars[inputs[i]].grad.Some?;
    } else {
      AccumulateSetsGrad(funcs, inputs, gxs, i + 1, n, r, j);
    }
  }

  /** A present contribution to a variable whose creator is recorded never
      raises, and leaves the variable with a gradient. */
  lemma PairSucceeds(funcs: seq<Function>, x: nat, gx: Option<int>, w: Walk)
    requires Inv(funcs, w) && w.failure.None? && x < |w.vars| && gx.Some?
    requires w.vars[x].creator.Some? ==> funcs[w.vars[x].creator.value].rec.Some?
    ensures AccumulatePair(funcs, x, gx, w).failure.None?
  {
  }

  /** On a ready worklist the popped function's backward rule succeeds and
      returns one present gradient per input. */
  lemma LocalGradsPresent(funcs: seq<Function>, w: Walk)
    requires Inv(funcs, w) && w.queue.items != [] && WellFormed(w.vars, funcs) && Ready(funcs, w)
    ensures var f := Last(w.queue.items);
            var gxs := LocalGrads(funcs, w);
            gxs.Ok? && |gxs.value| == |funcs[f].rec.value.inputs|
            && forall j | 0 <= j < |gxs.value| :: gxs.value[j].Some?
  {
    var f := Last(w.queue.items);
    var rec := funcs[f].rec.value;
    assert RecordLinked(w.vars, funcs, f);
    assert OutputsSet(w.vars, funcs, f);
    assert GradsOf(w.vars, rec.outputs) == [w.vars[rec.outputs[0]].grad];
  }

  /** After accumulating into the inputs of `f`, every listed function has
      its output's gradient: old entries kept theirs, new entries are
      creators of inputs of `f`, which now have one. */
  lemma AccumulateReady(funcs: seq<Function>, f: nat, gxs: seq<Option<int>>, w: Walk, p: Walk, a: Walk)
    requires Inv(funcs, w) && w.queue.items != [] && WellFormed(w.vars, funcs) && Ready(funcs, w)
    requires f == Last(w.queue.items) && p == Popped(w) && Inv(funcs, p)
    requires |gxs| == |funcs[f].rec.value.inputs| && forall j | 0 <= j < |gxs| :: gxs[j].Some?
    requires a == AccumulateFrom(funcs, funcs[f].rec.value.inputs, gxs, 0, p) && a.failure.None?
    ensures forall j | 0 <= j < |a.queue.items| :: OutputsSet(a.vars, funcs, a.queue.items[j])
  {
    var inputs := funcs[f].rec.value.inputs;
    AccumulateEnqueues(funcs, inputs, gxs, 0, p, a);
    AccumulateKeepsGrads(funcs, inputs, gxs, 0, p, a);
    forall j | 0 <= j < |a.queue.items|
      ensures OutputsSet(a.vars, funcs, a.queue.items[j])
    {
      var g := a.queue.items[j];
      if g in p.queue.items {
        var j' :| 0 <= j' < |p.queue.items| && p.queue.items[j'] == g;
        assert g == w.queue.items[j'];
        StillSet(w.vars, a.vars, funcs, g);
      } else {
        var k :| 0 <= k < |inputs| && w.vars[inputs[k]].creator == Some(g);
        AccumulateSetsGrad(funcs, inputs, gxs, 0, p, a, k);
        NowSet(w.vars, a.vars, funcs, inputs[k]);
      }
    }
  }

  lemma StillSet(vars: seq<Variable>, after: seq<Variable>, funcs: seq<Function>, g: nat)
    requires Linked(vars, funcs) && |after| == |vars| && g < |funcs| && funcs[g].rec.Some?
    requires OutputsSet(vars, funcs, g)
    requires forall k | 0 <= k < |vars| && vars[k].grad.Some? :: after[k].grad.Some?
    ensures Linked(after, funcs) ==> OutputsSet(after, funcs, g)
  {
  }

  /** A variable with a gradient makes its creator ready. */
  lemma NowSet(vars: seq<Variable>, after: seq<Variable>, funcs: seq<Function>, x: nat)
    requires WellFormed(vars, funcs) && SameStructure(vars, after)
    requires x < |vars| && vars[x].creator.Some? && after[x].grad.Some?
    ensures funcs[vars[x].creator.value].rec.Some?
    ensures OutputsSet(after, funcs, vars[x].creator.value)
  {
    var g := vars[x].creator.value;
    SameStructureKeepsShape(vars, after, funcs);
    assert CreatorLinked(vars, funcs, x);
    assert RecordLinked(vars, funcs, g);
    assert funcs[g].rec.value.outputs[0] == x;
  }

  /** Clearing the outputs of `f` keeps every other listed function ready:
      none of them shares an output with `f`. */
  lemma ClearKeepsReady(funcs: seq<Function>, f: nat, w: Walk, a: Walk)
    requires Inv(funcs, w) && w.queue.items != [] && WellFormed(w.vars, funcs)
    requires f == Last(w.queue.items) && Inv(funcs, a) && SameStructure(w.vars, a.vars)
    requires forall g | g in a.queue.items :: Priority(funcs, g) < Priority(funcs, f) || g in w.queue.items[..|w.queue.items| - 1]
    requires forall j | 0 <= j < |a.queue.items| :: OutputsSet(a.vars, funcs, a.queue.items[j])
    ensures var cleared := ClearGrads(a.vars, funcs[f].rec.value.outputs);
            forall j | 0 <= j < |a.queue.items| :: OutputsSet(cleared, funcs, a.queue.items[j])
  {
    var outs := funcs[f].rec.value.outputs;
    var cleared := ClearGrads(a.vars, outs);
    SameStructureKeepsShape(w.vars, a.vars, funcs);
    assert RecordLinked(w.vars, funcs, f);
    forall j | 0 <= j < |a.queue.items|
      ensures OutputsSet(cleared, funcs, a.queue.items[j])
    {
      var g := a.queue.items[j];
      assert RecordLinked(w.vars, funcs, g);
      assert OutputsSet(a.vars, funcs, g);
      var o := funcs[g].rec.value.outputs[0];
      assert g in a.queue.items;
      assert g != f by {
        if g in w.queue.items[..|w.queue.items| - 1] {
          var j' :| 0 <= j' < |w.queue.items| - 1 && w.queue.items[j'] == g;
          assert w.queue.items[j'] != w.queue.items[|w.queue.items| - 1];
        }
      }
      assert o !in outs;
      assert cleared[o].grad.Some?;
    }
  }

  lemma StepSucceeds(funcs: seq<Function>, retain: bool, w: Walk)
    requires Inv(funcs, w) && w.failure.None? && w.queue.items != []
    requires WellFormed(w.vars, funcs) && Ready(funcs, w)
    ensures var r := Step(funcs, retain, w);
            r.failure.None? && Ready(funcs, r)
  {
    var f := Last(w.queue.items);
    PopKeepsInv(funcs, w.queue);
    var popped := Popped(w);
    var rec := funcs[f].rec.value;
    LocalGradsPresent(funcs, w);
    var gxs := LocalGrads(funcs, w).value;
    WellFormedRecorded(w.vars, funcs);
    AccumulateSucceeds(funcs, rec.inputs, gxs, 0, popped);
    var a := AccumulateFrom(funcs, rec.inputs, gxs, 0, popped);
    AccumulateReady(funcs, f, gxs, w, popped, a);
    if !retain {
      AccumulateEnqueues(funcs, rec.inputs, gxs, 0, popped, a);
      EnqueuedBelow(funcs, w, f, popped, a);
      ClearKeepsReady(funcs, f, w, a);
    }
  }

  /** A function the accumulation enqueues is the creator of an input of
      `f`, so its priority is below `f`'s; everything else on the worklist
      was there before the pop. */
  lemma EnqueuedBelow(funcs: seq<Function>, w: Walk, f: nat, popped: Walk, a: Walk)
    requires Inv(funcs, w) && w.queue.items != [] && WellFormed(w.vars, funcs)
    requires f == Last(w.queue.items) && funcs[f].rec.Some? && popped == Popped(w) && Inv(funcs, a)
    requires forall g | g in a.queue.items && g !in popped.queue.items ::
      g !in popped.queue.seen
      && exists j | 0 <= j < |funcs[f].rec.value.inputs| :: popped.vars[funcs[f].rec.value.inputs[j]].creator == Some(g)
    ensures forall g | g in a.queue.items :: Priority(funcs, g) < Priority(funcs, f) || g in w.queue.items[..|w.queue.items| - 1]
  {
    var inputs := funcs[f].rec.value.inputs;
    forall g | g in a.queue.items
      ensures Priority(funcs, g) < Priority(funcs, f) || g in w.queue.items[..|w.queue.items| - 1]
    {
      if g !in popped.queue.items {
        var k :| 0 <= k < |inputs| && popped.vars[inputs[k]].creator == Some(g);
        CreatorBelow(w.vars, funcs, f, k, g);
      }
    }
  }

  lemma {:induction false} RunSucceeds(funcs: seq<Function>, retain: bool, w: Walk)
    requires Inv(funcs, w) && w.failure.None? && WellFormed(w.vars, funcs) && Ready(funcs, w)
    ensures Run(funcs, retain, w).failure.None?
    decreases Unseen(funcs, w.queue), |w.queue.items|
  {
    if w.queue.items != [] {
      StepSucceeds(funcs, retain, w);
      var s := Step(funcs, retain, w);
      SameStructureKeepsShape(w.vars, s.vars, funcs);
      RunSucceeds(funcs, retain, s);
    }
  }

  /** Every output gradient that line 86 reads is set, so on a graph built by
      `square`/`add` a `backward` call raises exactly when it starts from a
      leaf: `add_func(None)` fails with `AttributeError` after the gradient
      has been seeded. */
  lemma BackwardRaisesOnlyOnLeaves(vars: seq<Variable>, funcs: seq<Function>, v: nat, retain: bool)
    requires WellFormed(vars, funcs) && v < |vars|
    ensures var r := BackwardWalk(vars, funcs, v, retain);
            (r.failure.None? <==> vars[v].creator.Some?)
            && (vars[v].creator.None? ==> r.failure == Some(AttributeError) && r.vars == Seed(vars, v))
  {
    var seeded := Seed(vars, v);
    SameStructureKeepsShape(vars, seeded, funcs);
    if vars[v].creator.Some? {
      var c := vars[v].creator.value;
      assert CreatorLinked(vars, funcs, v);
      assert RecordLinked(vars, funcs, c);
      var a := AddFunc(funcs, Empty, seeded[v].creator);
      assert a.value.items == [c];
      var w := Walk(seeded, a.value, [], None);
      assert OutputsSet(seeded, funcs, c) by {
        assert funcs[c].rec.value.outputs == [v];
      }
      RunSucceeds(funcs, retain, w);
    }
  }

  // ---------------------------------------------------------------------
  // Contributions to one input within one backward rule are summed.

  /** The gradients paired with variable `k` by `zip(f.inputs, gxs)` from
      pair `i` on. */
  function Contributions(inputs: seq<nat>, gxs: seq<Option<int>>, k: nat, i: nat): seq<int>
    requires forall j | 0 <= j < |gxs| :: gxs[j].Some?
    decreases |inputs| - i
  {
    if i >= |inputs| || i >= |gxs| then []
    else (if inputs[i] == k then [gxs[i].value] else []) + Contributions(inputs, gxs, k, i + 1)
  }

  function Sum(xs: seq<int>): int
  {
    if xs == [] then 0 else xs[0] + Sum(xs[1..])
  }

  /** A gradient after contributions `cs`: unchanged when there are none,
      otherwise the sum, added to the old gradient when there was one. */
  function Total(grad: Option<int>, cs: seq<int>): Option<int>
  {
    if cs == [] then grad
    else if grad.None? then Some(Sum(cs))
    else Some(grad.value + Sum(cs))
  }

  /** Assign-then-add accumulation sums every contribution a backward rule
      hands to a variable, also when the variable is passed twice
      (`add(x, x)` gives `x` twice the output gradient). */
  lemma {:induction false} AccumulateSums(funcs: seq<Function>, inputs: seq<nat>, gxs: seq<Option<int>>, i: nat, w: Walk)
    requires Inv(funcs, w) && w.failure.None? && RefsIn(inputs, |w.vars|)
    requires forall j | 0 <= j < |gxs| :: gxs[j].Some?
    requires AccumulateFrom(funcs, inputs, gxs, i, w).failure.None?
    decreases |inputs| - i
    ensures var r := AccumulateFrom(funcs, inputs, gxs, i, w);
            forall k | 0 <= k < |w.vars| :: r.vars[k].grad == Total(w.vars[k].grad, Contributions(inputs, gxs, k, i))
  {
    if i < |inputs| && i < |gxs| {
      var x := inputs[i];
      var n := AccumulatePair(funcs, x, gxs[i], w);
      assert AccumulateFrom(funcs, inputs, gxs, i, w) == AccumulateFrom(funcs, inputs, gxs, i + 1, n);
      AccumulateSums(funcs, inputs, gxs, i + 1, n);
      forall k | 0 <= k < |w.vars|
        ensures Total(n.vars[k].grad, Contributions(inputs, gxs, k, i + 1))
                == Total(w.vars[k].grad, Contributions(inputs, gxs, k, i))
      {
        var rest := Contributions(inputs, gxs, k, i + 1);
        if k == x {
          assert Contributions(inputs, gxs, k, i) == [gxs[i].value] + rest;
          assert n.vars[k].grad == Accumulated(w.vars[k].grad, gxs[i]).value;
          TotalAfter(w.vars[k].grad, gxs[i].value, rest);
        } else {
          assert n.vars[k] == w.vars[k];
          assert Contributions(inputs, gxs, k, i) == rest;
        }
      }
    }
  }

  /** Adding one contribution and then the rest is adding them all. */
  lemma TotalAfter(grad: Option<int>, gx: int, rest: seq<int>)
    ensures Total(Accumulated(grad, Some(gx)).value, rest) == Total(grad, [gx] + rest)
  {
    assert ([gx] + rest)[1..] == rest;

  }

  // ---------------------------------------------------------------------
  // The loop processes exactly the functions reachable from the start.

  /** `g` created one of the recorded inputs of `f`, so line 98 hands it to
      `add_func` while `f` is processed. */
  predicate Feeds(vars: seq<Variable>, funcs: seq<Function>, f: nat, g: nat)
    requires Linked(vars, funcs)
  {
    f < |funcs| && funcs[f].rec.Some?
    && exists j | 0 <= j < |funcs[f].rec.value.inputs| :: vars[funcs[f].rec.value.inputs[j]].creator == Some(g)
  }

  /** A chain of functions, each the creator of an input of the one before. */
  predicate Chain(vars: seq<Variable>, funcs: seq<Function>, p: seq<nat>)
    requires Linked(vars, funcs)
  {
    forall i | 0 <= i < |p| - 1 :: Feeds(vars, funcs, p[i], p[i + 1])
  }

  /** `g` is `v.creator`, or the creator of an input of a recorded function
      that `v` reaches. */
  ghost predicate Reaches(vars: seq<Variable>, funcs: seq<Function>, v: nat, g: nat)
    requires Linked(vars, funcs) && v < |vars|
  {
    vars[v].creator.Some?
    && exists p: seq<nat> :: Chain(vars, funcs, p) && |p| > 0 && p[0] == vars[v].creator.value && p[|p| - 1] == g
  }

  /** The functions reachable from `v` through creators and recorded inputs. */
  ghost function Reachable(vars: seq<Variable>, funcs: seq<Function>, v: nat): (s: set<nat>)
    requires Linked(vars, funcs) && v < |vars|
    ensures forall g | g in s :: g < |funcs| && Reaches(vars, funcs, v, g)
    ensures forall g | 0 <= g < |funcs| && Reaches(vars, funcs, v, g) :: g in s
  {
    set g | 0 <= g < |funcs| && Reaches(vars, funcs, v, g)
  }

  /** Extending a chain by one more creator. */
  lemma ReachesFeeds(vars: seq<Variable>, funcs: seq<Function>, v: nat, f: nat, g: nat)
    requires Linked(vars, funcs) && v < |vars|
    requires Reaches(vars, funcs, v, f) && Feeds(vars, funcs, f, g)
    ensures Reaches(vars, funcs, v, g)
  {
    var p :| Chain(vars, funcs, p) && |p| > 0 && p[0] == vars[v].creator.value && p[|p| - 1] == f;
    var q := p + [g];
    forall i | 0 <= i < |q| - 1
      ensures Feeds(vars, funcs, q[i], q[i + 1])
    {
      if i < |p| - 1 {
        assert q[i] == p[i] && q[i + 1] == p[i + 1];
      } else {
        assert q[i] == f && q[i + 1] == g;
      }
    }
    assert Chain(vars, funcs, q);
  }

  lemma SameCreators(a: seq<Variable>, b: seq<Variable>)
    requires SameStructure(a, b)
    ensures forall k | 0 <= k < |a| :: a[k].creator == b[k].creator
  {
    forall k | 0 <= k < |a| ensures a[k].creator == b[k].creator {
      assert a[k].(grad := None).creator == b[k].(grad := None).creator;
    }
  }

  /** Every listed or processed function is reachable from `v`. */
  ghost predicate FromStart(vars: seq<Variable>, funcs: seq<Function>, v: nat, w: Walk)
    requires Linked(vars, funcs) && v < |vars|
  {
    (forall g | g in w.queue.items :: Reaches(vars, funcs, v, g))
    && (forall i | 0 <= i < |w.processed| :: Reaches(vars, funcs, v, w.processed[i]))
  }

  lemma StepFromStart(vars: seq<Variable>, funcs: seq<Function>, v: nat, retain: bool, w: Walk)
    requires Linked(vars, funcs) && v < |vars| && SameStructure(vars, w.vars)
    requires Inv(funcs, w) && w.failure.None? && w.queue.items != []
    requires FromStart(vars, funcs, v, w)
    ensures FromStart(vars, funcs, v, Step(funcs, retain, w))
  {
    var f := Last(w.queue.items);
    PopKeepsInv(funcs, w.queue);
    var popped := Popped(w);
    assert f in w.queue.items;
    assert forall g | g in popped.queue.items :: g in w.queue.items;
    var r := Step(funcs, retain, w);
    forall i | 0 <= i < |r.processed| ensures Reaches(vars, funcs, v, r.processed[i]) {
      if i < |w.processed| {
        assert r.processed[i] == w.processed[i];
      } else {
        assert r.processed[i] == f;
      }
    }
    var gxs := LocalGrads(funcs, w);
    if gxs.Ok? {
      var inputs := funcs[f].rec.value.inputs;
      var a := AccumulateFrom(funcs, inputs, gxs.value, 0, popped);
      EnqueuedFromStart(vars, funcs, v, f, gxs.value, popped, a);
      assert r.queue == a.queue;
    } else {
      assert r.queue == popped.queue;
    }
  }

  /** Whatever the accumulation into the inputs of a reachable `f` lists is
      reachable too. */
  lemma EnqueuedFromStart(vars: seq<Variable>, funcs: seq<Function>, v: nat, f: nat, gxs: seq<Option<int>>, popped: Walk, a: Walk)
    requires Linked(vars, funcs) && v < |vars| && SameStructure(vars, popped.vars)
    requires Inv(funcs, popped) && popped.failure.None?
    requires f < |funcs| && funcs[f].rec.Some? && Reaches(vars, funcs, v, f)
    requires forall g | g in popped.queue.items :: Reaches(vars, funcs, v, g)
    requires a == AccumulateFrom(funcs, funcs[f].rec.value.inputs, gxs, 0, popped)
    ensures forall g | g in a.queue.items :: Reaches(vars, funcs, v, g)
  {
    var inputs := funcs[f].rec.value.inputs;
    AccumulateEnqueues(funcs, inputs, gxs, 0, popped, a);
    SameCreators(vars, popped.vars);
    forall g | g in a.queue.items && g !in popped.queue.items
      ensures Reaches(vars, funcs, v, g)
    {
      var j :| 0 <= j < |inputs| && popped.vars[inputs[j]].creator == Some(g);
      assert vars[inputs[j]].creator == Some(g);
      assert Feeds(vars, funcs, f, g);
      ReachesFeeds(vars, funcs, v, f, g);
    }
  }

  lemma {:induction false} RunFromStart(vars: seq<Variable>, funcs: seq<Function>, v: nat, retain: bool, w: Walk)
    requires Linked(vars, funcs) && v < |vars| && SameStructure(vars, w.vars)
    requires Inv(funcs, w) && FromStart(vars, funcs, v, w)
    ensures FromStart(vars, funcs, v, Run(funcs, retain, w))
    decreases Unseen(funcs, w.queue), |w.queue.items|
  {
    if w.failure.None? && w.queue.items != [] {
      StepFromStart(vars, funcs, v, retain, w);
      var s := Step(funcs, retain, w);
      SameStructureTrans(vars, w.vars, s.vars);
      RunFromStart(vars, funcs, v, retain, s);
    }
  }

  /** Every seen function is processed or still listed, and the creator of
      every input of a processed function has been seen. */
  ghost predicate Closed(vars: seq<Variable>, funcs: seq<Function>, w: Walk)
    requires Linked(vars, funcs)
  {
    (forall g | g in w.queue.seen :: g in w.processed || g in w.queue.items)
    && (forall i, g | 0 <= i < |w.processed| && Feeds(vars, funcs, w.processed[i], g) :: g in w.queue.seen)
  }

  /** One pass of the zip loop keeps every listed function listed, lists
      every function it marks seen, and marks the creator of `x` seen. */
  lemma PairListed(funcs: seq<Function>, x: nat, gx: Option<int>, w: Walk)
    requires Inv(funcs, w) && w.failure.None? && x < |w.vars|
    ensures var r := AccumulatePair(funcs, x, gx, w);
            (forall g | g in w.queue.items :: g in r.queue.items)
            && (forall g | g in r.queue.seen :: g in w.queue.seen || g in r.queue.items)
            && (r.failure.None? && w.vars[x].creator.Some? ==> w.vars[x].creator.value in r.queue.seen)
  {
    var c := w.vars[x].creator;
    if Accumulated(w.vars[x].grad, gx).Ok? && c.Some? {
      var a := AddFunc(funcs, w.queue, c);
    }
  }

  lemma {:induction false} AccumulateListed(funcs: seq<Function>, inputs: seq<nat>, gxs: seq<Option<int>>, i: nat, w: Walk, r: Walk)
    requires Inv(funcs, w) && w.failure.None? && RefsIn(inputs, |w.vars|)
    requires r == AccumulateFrom(funcs, inputs, gxs, i, w)
    decreases |inputs| - i
    ensures forall g | g in w.queue.items :: g in r.queue.items
    ensures forall g | g in r.queue.seen :: g in w.queue.seen || g in r.queue.items
  {
    if i < |inputs| && i < |gxs| {
      var n := AccumulatePair(funcs, inputs[i], gxs[i], w);
      PairListed(funcs, inputs[i], gxs[i], w);
      if n.failure.None? {
        AccumulateFromUnfold(funcs, inputs, gxs, i, w);
        AccumulateListed(funcs, inputs, gxs, i + 1, n, r);
      }
    }
  }

  /** A zip loop that covers every input and does not raise marks the
      creator of every input seen. */
  lemma {:induction false} AccumulateSeesCreators(funcs: seq<Function>, inputs: seq<nat>, gxs: seq<Option<int>>, i: nat, w: Walk, r: Walk)
    requires Inv(funcs, w) && w.failure.None? && RefsIn(inputs, |w.vars|)
    requires r == AccumulateFrom(funcs, inputs, gxs, i, w)
    requires r.failure.None? && |inputs| <= |gxs|
    decreases |inputs| - i
    ensures forall j | i <= j < |inputs| && w.vars[inputs[j]].creator.Some? :: w.vars[inputs[j]].creator.value in r.queue.seen
  {
    if i < |inputs| {
      var n := AccumulatePair(funcs, inputs[i], gxs[i], w);
      PairListed(funcs, inputs[i], gxs[i], w);
      AccumulateFromUnfold(funcs, inputs, gxs, i, w);
      assert n.failure.None? && r == AccumulateFrom(funcs, inputs, gxs, i + 1, n);
      AccumulateSeesCreators(funcs, inputs, gxs, i + 1, n, r);
      SameCreators(w.vars, n.vars);
      forall j | i <= j < |inputs| && w.vars[inputs[j]].creator.Some?
        ensures w.vars[inputs[j]].creator.value in r.queue.seen
      {
        if j == i {
          assert w.vars[inputs[i]].creator.value in n.queue.seen;
        } else {
          assert n.vars[inputs[j]].creator == w.vars[inputs[j]].creator;
        }
      }
    }
  }

  lemma StepClosed(vars: seq<Variable>, funcs: seq<Function>, retain: bool, w: Walk)
    requires WellFormed(vars, funcs) && SameStructure(vars, w.vars)
    requires Inv(funcs, w) && w.failure.None? && w.queue.items != []
    requires Closed(vars, funcs, w)
    ensures var s := Step(funcs, retain, w);
            s.failure.None? ==> Closed(vars, funcs, s)
  {
    var f := Last(w.queue.items);
    PopKeepsInv(funcs, w.queue);
    var popped := Popped(w);
    var s := Step(funcs, retain, w);
    var gxs := LocalGrads(funcs, w);
    if gxs.Ok? && s.failure.None? {
      var rec := funcs[f].rec.value;
      assert RecordLinked(vars, funcs, f);
      var a := AccumulateFrom(funcs, rec.inputs, gxs.value, 0, popped);
      AccumulateClosed(vars, funcs, w, f, gxs.value, popped, a);
      assert s.queue == a.queue && s.processed == a.processed;
    }
  }

  /** Accumulating into every input of the popped function `f` marks the
      input creators seen and lists every function newly seen. */
  lemma AccumulateClosed(vars: seq<Variable>, funcs: seq<Function>, w: Walk, f: nat, gxs: seq<Option<int>>, popped: Walk, a: Walk)
    requires Linked(vars, funcs) && SameStructure(vars, w.vars)
    requires Inv(funcs, w) && w.queue.items != [] && Closed(vars, funcs, w)
    requires f == Last(w.queue.items) && popped == Popped(w) && Inv(funcs, popped)
    requires |gxs| >= |funcs[f].rec.value.inputs|
    requires a == AccumulateFrom(funcs, funcs[f].rec.value.inputs, gxs, 0, popped) && a.failure.None?
    ensures Closed(vars, funcs, a)
  {
    var inputs := funcs[f].rec.value.inputs;
    var n := |w.queue.items|;
    AccumulateListed(funcs, inputs, gxs, 0, popped, a);
    AccumulateSeesCreators(funcs, inputs, gxs, 0, popped, a);
    SameCreators(vars, w.vars);
    assert a.processed == w.processed + [f];
    forall g | g in a.queue.seen ensures g in a.processed || g in a.queue.items {
      if g in w.queue.items && g != f {
        var j :| 0 <= j < n && w.queue.items[j] == g;
        assert g == popped.queue.items[j];
      }
    }
    forall i, g | 0 <= i < |a.processed| && Feeds(vars, funcs, a.processed[i], g)
      ensures g in a.queue.seen
    {
      if i == |w.processed| {
        var j :| 0 <= j < |inputs| && vars[inputs[j]].creator == Some(g);
        assert popped.vars[inputs[j]].creator == Some(g);
      } else {
        assert a.processed[i] == w.processed[i];
      }
    }
  }

  lemma {:induction false} RunClosed(vars: seq<Variable>, funcs: seq<Function>, retain: bool, w: Walk)
    requires WellFormed(vars, funcs) && SameStructure(vars, w.vars)
    requires Inv(funcs, w) && Closed(vars, funcs, w)
    ensures var r := Run(funcs, retain, w);
            r.failure.None? ==> Closed(vars, funcs, r)
    decreases Unseen(funcs, w.queue), |w.queue.items|
  {
    if w.failure.None? && w.queue.items != [] {
      StepClosed(vars, funcs, retain, w);
      var s := Step(funcs, retain, w);
      SameStructureTrans(vars, w.vars, s.vars);
      if s.failure.None? {
        RunClosed(vars, funcs, retain, s);
      }
    }
  }

  /** Once the worklist is empty, a closed walk has processed every function
      of a chain that starts at a seen function. */
  lemma {:induction false} ChainProcessed(vars: seq<Variable>, funcs: seq<Function>, w: Walk, p: seq<nat>, n: nat)
    requires Linked(vars, funcs) && Closed(vars, funcs, w) && w.queue.items == []
    requires Chain(vars, funcs, p) && n < |p| && p[0] in w.queue.seen
    ensures p[n] in w.processed
  {
    if n > 0 {
      ChainProcessed(vars, funcs, w, p, n - 1);
      assert Feeds(vars, funcs, p[n - 1], p[n]);
      var i :| 0 <= i < |w.processed| && w.processed[i] == p[n - 1];
      assert p[n] in w.queue.seen;
    }
  }

  /** A successful `backward` on a graph built by `square` and `add` invokes
      the backward rule of every function reachable from `v`. */
  lemma BackwardCoversReachable(vars: seq<Variable>, funcs: seq<Function>, v: nat, retain: bool)
    requires WellFormed(vars, funcs) && v < |vars|
    ensures var r := BackwardWalk(vars, funcs, v, retain);
            r.failure.None? ==> forall g | g in Reachable(vars, funcs, v) :: g in r.processed
  {
    if vars[v].creator.Some? {
      var c := vars[v].creator.value;
      var w := Walk(Seed(vars, v), Queue([c], {c}), [], None);
      BackwardStart(vars, funcs, v, retain, w);
      assert Closed(vars, funcs, w);
      RunClosed(vars, funcs, retain, w);
      var r := Run(funcs, retain, w);
      if r.failure.None? {
        ClosedCovers(vars, funcs, v, r);
      }
    }
  }

  /** From a variable whose creator `c` is recorded, `backward` seeds the
      gradient, lists `[c]`, marks `c` seen and enters the loop. */
  lemma BackwardStart(vars: seq<Variable>, funcs: seq<Function>, v: nat, retain: bool, w: Walk)
    requires Linked(vars, funcs) && v < |vars| && vars[v].creator.Some?
    requires funcs[vars[v].creator.value].rec.Some?
    requires w == Walk(Seed(vars, v), Queue([vars[v].creator.value], {vars[v].creator.value}), [], None)
    ensures Inv(funcs, w) && SameStructure(vars, w.vars)
    ensures BackwardWalk(vars, funcs, v, retain) == Run(funcs, retain, w)
  {
    var seeded := Seed(vars, v);
    SameStructureKeepsShape(vars, seeded, funcs);
    var c := vars[v].creator.value;
    assert seeded[v].creator == Some(c);
    var a := AddFunc(funcs, Empty, Some(c));
    assert InsertionPoint(funcs, [], c) == 0;
    assert a.value.items == [c];
    assert a.value.seen == {c};
    assert a == Ok(Queue([c], {c}));
  }

  /** A closed walk with an empty worklist that has seen `v.creator` has
      processed every function reachable from `v`. */
  lemma ClosedCovers(vars: seq<Variable>, funcs: seq<Function>, v: nat, r: Walk)
    requires Linked(vars, funcs) && v < |vars| && Closed(vars, funcs, r) && r.queue.items == []
    requires vars[v].creator.Some? && vars[v].creator.value in r.queue.seen
    ensures forall g | g in Reachable(vars, funcs, v) :: g in r.processed
  {
    forall g | g in Reachable(vars, funcs, v) ensures g in r.processed {
      var p :| Chain(vars, funcs, p) && |p| > 0 && p[0] == vars[v].creator.value && p[|p| - 1] == g;
      ChainProcessed(vars, funcs, r, p, |p| - 1);
    }
  }

  /** So a successful `backward` invokes exactly the reachable functions,
      each once: the loop runs once per reachable function. */
  lemma BackwardRunsAllReachable(vars: seq<Variable>, funcs: seq<Function>, v: nat, retain: bool)
    requires WellFormed(vars, funcs) && v < |vars|
    ensures var r := BackwardWalk(vars, funcs, v, retain);
            r.failure.None? ==>
              (forall g | g in Reachable(vars, funcs, v) :: g in r.processed)
              && |r.processed| == |Reachable(vars, funcs, v)|
  {
    var r := BackwardWalk(vars, funcs, v, retain);
    BackwardCoversReachable(vars, funcs, v, retain);
    BackwardInvokesEachOnce(vars, funcs, v, retain);
    if r.failure.None? {
      DistinctExactly(r.processed, Reachable(vars, funcs, v));
    }
  }
}
