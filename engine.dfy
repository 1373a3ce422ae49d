/** The engine as the program runs it: an arena of `Variable` and `Function`
    objects whose fields the methods update in place. `Variable.__init__`,
    `set_creator`, `cleargrad` and `backward` (with its inner `add_func`),
    `Function.__call__` and the wrappers `square` and `add`. Each method is
    proved to compute exactly the value-level definitions of `Graph`,
    `Worklist` and `Traversal`, about which `Properties` proves the rest. */
module Engine {
  import opened Base
  import opened Graph
  import opened Worklist
  import opened Traversal
  import opened Configuration
  import Ops

  /** The heap of one program run: every `Variable` and every `Function`
      object created so far, addressed by index. */
  class Arena {
    var vars: seq<Variable>
    var funcs: seq<Function>

    /** Every reference held by an object resolves to an object. */
    predicate Valid()
      reads this
    {
      Linked(vars, funcs)
    }

    constructor()
      ensures vars == [] && funcs == [] && Valid()
    {
      vars := [];
      funcs := [];
    }

    /** `Variable(data, name)`: a fresh leaf with no gradient, no creator and
        priority 0. */
    method NewVariable(data: int, name: Option<string>) returns (v: nat)
      modifies this
      ensures v == old(|vars|) && vars == old(vars) + [Leaf(data, name)] && funcs == old(funcs)
      ensures vars[v].grad.None? && vars[v].creator.None? && vars[v].priority == 0
      ensures old(Valid()) ==> Valid()
      ensures old(WellFormed(vars, funcs)) ==> WellFormed(vars, funcs)
    {
      v := |vars|;
      vars := vars + [Leaf(data, name)];
      assert forall k | 0 <= k < |old(vars)| :: vars[k] == old(vars)[k];
    }

    /** `Square()` / `Add()`: a function object that has not been called yet,
        so it has no `priority`, `inputs` or `outputs` attribute. */
    method NewFunction(op: Ops.Op) returns (f: nat)
      modifies this
      ensures f == old(|funcs|) && funcs == old(funcs) + [Function(op, None)] && vars == old(vars)
      ensures old(Valid()) ==> Valid()
      ensures old(WellFormed(vars, funcs)) ==> WellFormed(vars, funcs)
    {
      f := |funcs|;
      funcs := funcs + [Function(op, None)];
      assert forall k | 0 <= k < |old(funcs)| :: funcs[k] == old(funcs)[k];
    }

    /** `v.set_creator(f)`: `creator` is assigned first; reading
        `f.priority` then raises `AttributeError` when `f` was never called
        with recording on, and otherwise `priority` becomes one more than
        `f`'s. Nothing else changes. */
    method SetCreator(v: nat, f: nat) returns (r: Outcome)
      requires v < |vars| && f < |funcs|
      modifies this
      ensures funcs == old(funcs)
      ensures old(funcs[f].rec).Some? ==>
        r == Pass && vars == old(vars)[v := old(vars[v]).(creator := Some(f), priority := old(funcs[f].rec.value.priority) + 1)]
      ensures old(funcs[f].rec).None? ==>
        r == Fail(AttributeError) && vars == old(vars)[v := old(vars[v]).(creator := Some(f))]
      ensures old(Valid()) ==> Valid()
    {
      vars := vars[v := vars[v].(creator := Some(f))];
      if funcs[f].rec.None? {
        return Fail(AttributeError);
      }
      vars := vars[v := vars[v].(priority := funcs[f].rec.value.priority + 1)];
      r := Pass;
    }

    /** `v.cleargrad()`: only the gradient is reset. Once it is `None`, a
        second call changes nothing. */
    method ClearGrad(v: nat)
      requires v < |vars|
      modifies this
      ensures vars == old(vars)[v := old(vars[v]).(grad := None)] && funcs == old(funcs)
      ensures old(vars[v].grad).None? ==> vars == old(vars)
      ensures SameStructure(old(vars), vars)
    {
      vars := vars[v := vars[v].(grad := None)];
    }

    /** `[Variable(y) for y in ys]`: one fresh leaf per value,
        appended in order. */
    method NewOutputs(ys: seq<int>) returns (outputs: seq<nat>)
      modifies this
      ensures vars == old(vars) + Leaves(ys) && funcs == old(funcs)
      ensures outputs == Indices(old(|vars|), |ys|)
    {
      outputs := [];
      for i := 0 to |ys|
        invariant vars == old(vars) + Leaves(ys[..i]) && funcs == old(funcs)
        invariant outputs == Indices(old(|vars|), i)
      {
        assert Leaves(ys[..i + 1]) == Leaves(ys[..i]) + [Leaf(ys[i], None)];
        assert Indices(old(|vars|), i + 1) == Indices(old(|vars|), i) + [old(|vars|) + i];
        var y := NewVariable(ys[i], None);
        outputs := outputs + [y];
      }
      assert ys[..|ys|] == ys;
    }

    /** `for output in outputs: output.set_creator(self)`, once `f` has its
        priority. */
    method LinkOutputs(f: nat, outputs: seq<nat>)
      requires f < |funcs| && funcs[f].rec.Some? && RefsIn(outputs, |vars|)
      modifies this
      ensures funcs == old(funcs)
      ensures vars == WithCreator(old(vars), outputs, f, funcs[f].rec.value.priority + 1)
    {
      for i := 0 to |outputs|
        invariant funcs == old(funcs) && |vars| == old(|vars|)
        invariant WithCreator(vars, outputs[i..], f, funcs[f].rec.value.priority + 1)
                  == WithCreator(old(vars), outputs, f, funcs[f].rec.value.priority + 1)
      {
        assert outputs[i..][1..] == outputs[i + 1..];
        var o := SetCreator(outputs[i], f);
      }
      assert outputs[|outputs|..] == [];
    }

    /** Lines 114-119 with the flag on: `f` takes the largest input priority,
        becomes the creator of every output and records its inputs and
        outputs. The priority is assigned before the `set_creator` loop and
        the inputs and outputs after it; nothing in between reads them. */
    method Connect(f: nat, inputs: seq<nat>, outputs: seq<nat>)
      requires f < |funcs| && RefsIn(inputs, |vars|) && |inputs| > 0 && RefsIn(outputs, |vars|)
      modifies this
      ensures var p := MaxPriority(old(vars), inputs);
        && funcs == old(funcs)[f := Function(old(funcs[f].op), Some(Record(p, inputs, outputs)))]
        && vars == WithCreator(old(vars), outputs, f, p + 1)
    {
      var p := MaxPriority(vars, inputs);
      funcs := funcs[f := Function(funcs[f].op, Some(Record(p, inputs, outputs)))];
      LinkOutputs(f, outputs);
    }

    /** `f(*inputs)`. `forward` runs on the inputs' raw values and each
        result is wrapped in a fresh `Variable`. With `enable_backprop` on,
        `f` records the largest input priority, becomes every output's
        creator and records its inputs and outputs; with it off, `f` and the
        inputs are left alone and the outputs are plain leaves. `forward`
        returns one value, so line 121 returns that output unwrapped. A
        wrong number of inputs raises `TypeError` before anything is
        created. */
    method Call(config: Config, f: nat, inputs: seq<nat>) returns (r: Result<nat>)
      requires f < |funcs| && RefsIn(inputs, |vars|)
      modifies this
      ensures var ys := Ops.Forward(old(funcs[f].op), DataOf(old(vars), inputs));
        && (ys.Err? ==> r == Err(ys.error) && vars == old(vars) && funcs == old(funcs))
        && (ys.Ok? && !config.enableBackprop ==>
              r == Ok(old(|vars|))
              && vars == old(vars) + [Leaf(ys.value[0], None)] && funcs == old(funcs))
        && (ys.Ok? && config.enableBackprop ==>
              var p := MaxPriority(old(vars), inputs);
              r == Ok(old(|vars|))
              && vars == old(vars) + [Variable(ys.value[0], None, None, Some(f), p + 1)]
              && funcs == old(funcs)[f := Function(old(funcs[f].op), Some(Record(p, inputs, [old(|vars|)])))])
    {
      var xs := DataOf(vars, inputs);
      var ys := Ops.Forward(funcs[f].op, xs);
      if ys.Err? {
        return Err(ys.error);
      }
      var y := Emit(config, f, inputs, ys.value[0]);
      r := Ok(y);
    }

    /** Lines 111-121 for the one value `forward` returned: it is wrapped
        in a fresh output, which with the flag on is linked to `f`, and
        returned unwrapped. */
    method Emit(config: Config, f: nat, inputs: seq<nat>, data: int) returns (y: nat)
      requires f < |funcs| && RefsIn(inputs, |vars|) && |inputs| > 0
      modifies this
      ensures y == old(|vars|)
      ensures !config.enableBackprop ==>
        vars == old(vars) + [Leaf(data, None)] && funcs == old(funcs)
      ensures config.enableBackprop ==>
        var p := MaxPriority(old(vars), inputs);
        && vars == old(vars) + [Variable(data, None, None, Some(f), p + 1)]
        && funcs == old(funcs)[f := Function(old(funcs[f].op), Some(Record(p, inputs, [y])))]
    {
      y := |vars|;
      var outputs := NewOutputs([data]);
      assert outputs == [y];
      assert Leaves([data]) == [Leaf(data, None)];
      if config.enableBackprop {
        // `max` of an empty list would raise, but `forward` has already
        // rejected every call without inputs.
        ghost var added := vars;
        MaxPriorityFrame(old(vars), added, inputs);
        Connect(f, inputs, outputs);
        LinkedOutput(old(vars), added, data, outputs, f, MaxPriority(old(vars), inputs), MaxPriority(added, inputs), vars);
      }
    }

    /** `square(x)`: `Square()(x)`. A new function and a new output `x.data ** 2`
        are appended; with recording on they are linked and the output sits
        one priority level above `x`. */
    method Square(config: Config, x: nat) returns (y: nat)
      requires x < |vars|
      modifies this
      ensures var linked := config.enableBackprop;
        var f := old(|funcs|);
        var d := old(vars[x].data);
        && y == old(|vars|)
        && funcs == old(funcs) + [Function(Ops.Square, if linked then Some(Record(old(vars[x].priority), [x], [y])) else None)]
        && vars == old(vars) + [Variable(d * d, None, None,
                                         if linked then Some(f) else None,
                                         if linked then old(vars[x].priority) + 1 else 0)]
      ensures old(Valid()) ==> Valid()
      ensures old(WellFormed(vars, funcs)) ==> WellFormed(vars, funcs)
    {
      var f := NewFunction(Ops.Square);
      assert DataOf(vars, [x]) == [vars[x].data];
      ghost var vars1, funcs1 := vars, funcs;
      var r := Call(config, f, [x]);
      y := r.value;
      KeptWellFormed(vars1, funcs1, f, [x], vars1[x].data * vars1[x].data, config.enableBackprop, vars, funcs);
    }

    /** `add(x0, x1)`: `Add()(x0, x1)`. The output is `x0.data + x1.data`;
        with recording on it sits one level above the higher input. */
    method Add(config: Config, x0: nat, x1: nat) returns (y: nat)
      requires x0 < |vars| && x1 < |vars|
      modifies this
      ensures var linked := config.enableBackprop;
        var f := old(|funcs|);
        var p := if old(vars[x0].priority) >= old(vars[x1].priority) then old(vars[x0].priority) else old(vars[x1].priority);
        && y == old(|vars|)
        && funcs == old(funcs) + [Function(Ops.Add, if linked then Some(Record(p, [x0, x1], [y])) else None)]
        && vars == old(vars) + [Variable(old(vars[x0].data) + old(vars[x1].data), None, None,
                                         if linked then Some(f) else None,
                                         if linked then p + 1 else 0)]
      ensures old(Valid()) ==> Valid()
      ensures old(WellFormed(vars, funcs)) ==> WellFormed(vars, funcs)
    {
      var f := NewFunction(Ops.Add);
      assert DataOf(vars, [x0, x1]) == [vars[x0].data, vars[x1].data];
      ghost var vars1, funcs1 := vars, funcs;
      var r := Call(config, f, [x0, x1]);
      y := r.value;
      KeptWellFormed(vars1, funcs1, f, [x0, x1], vars1[x0].data + vars1[x1].data, config.enableBackprop, vars, funcs);
    }

    /** The inner `add_func(f)` on the worklist `q`: a seen function is
        skipped; otherwise it is appended and marked seen, and the list is
        sorted by priority. Sorting reads every element's `priority`, so a
        `None` or never-recorded `f` raises `AttributeError`. On a sorted
        list with one element appended, Python's stable sort moves that
        element left past every element of larger priority, and no further. */
    method AddFuncTo(q: Queue, f: Option<nat>) returns (r: Result<Queue>)
      requires QueueInv(funcs, q) && (f.Some? ==> f.value < |funcs|)
      ensures r == AddFunc(funcs, q, f)
    {
      if f.None? {
        return Err(AttributeError);
      }
      if f.value in q.seen {
        return Ok(q);
      }
      var seen := q.seen + {f.value};
      if funcs[f.value].rec.None? {
        return Err(AttributeError);
      }
      var items := SortAppended(q.items, f.value);
      r := Ok(Queue(items, seen));
    }

    /** `funcs.sort(key=lambda x: x.priority)` right after `f` was appended
        to the sorted list `items`: the swaps carry `f` left past every
        element of larger priority, which lands it at its insertion point. */
    method SortAppended(items: seq<nat>, f: nat) returns (sorted: seq<nat>)
      requires Keyed(funcs, items) && Sorted(funcs, items)
      requires f < |funcs| && funcs[f].rec.Some?
      ensures var k := InsertionPoint(funcs, items, f);
        sorted == items[..k] + [f] + items[k..]
    {
      sorted := items + [f];
      var k := |items|;
      while k > 0 && Priority(funcs, sorted[k - 1]) > Priority(funcs, f)
        invariant 0 <= k <= |items|
        invariant sorted == items[..k] + [f] + items[k..]
        invariant forall i | k <= i < |items| :: Priority(funcs, f) < Priority(funcs, items[i])
        decreases k
      {
        MoveLeft(items, k, f);
        sorted := sorted[k - 1 := f][k := sorted[k - 1]];
        k := k - 1;
      }
      forall i | 0 <= i < k
        ensures Priority(funcs, items[i]) <= Priority(funcs, f)
      {
        assert Priority(funcs, items[i]) <= Priority(funcs, items[k - 1]);
      }
      InsertionPointIs(funcs, items, f, k);
    }

    /** One pass of the `for x, gx in zip(f.inputs, gxs)` loop: the first
        contribution is assigned, later ones are added (adding `None` raises
        `TypeError` and leaves the gradient as it was), then `x.creator`, if
        any, goes through `add_func`. */
    method AccumulatePairInto(x: nat, gx: Option<int>, q: Queue, ghost processed: seq<nat>)
      returns (q': Queue, failure: Option<Error>)
      requires Inv(funcs, Walk(vars, q, processed, None)) && x < |vars|
      modifies this
      ensures funcs == old(funcs)
      ensures Walk(vars, q', processed, failure)
              == AccumulatePair(funcs, x, gx, Walk(old(vars), q, processed, None))
    {
      q', failure := q, None;
      if vars[x].grad.None? {
        vars := vars[x := vars[x].(grad := gx)];
      } else if gx.None? {
        failure := Some(TypeError);
        return;
      } else {
        vars := vars[x := vars[x].(grad := Some(vars[x].grad.value + gx.value))];
      }
      if vars[x].creator.Some? {
        var a := AddFuncTo(q, vars[x].creator);
        if a.Err? {
          failure := Some(a.error);
        } else {
          q' := a.value;
        }
      }
    }

    /** The `for x, gx in zip(f.inputs, gxs)` loop on the worklist `q`,
        returning the new worklist and the exception that stopped the loop,
        if any. */
    method AccumulateInto(inputs: seq<nat>, gxs: seq<Option<int>>, q: Queue, ghost processed: seq<nat>)
      returns (q': Queue, failure: Option<Error>)
      requires Inv(funcs, Walk(vars, q, processed, None)) && RefsIn(inputs, |vars|)
      modifies this
      ensures funcs == old(funcs)
      ensures Walk(vars, q', processed, failure)
              == AccumulateFrom(funcs, inputs, gxs, 0, Walk(old(vars), q, processed, None))
    {
      ghost var target := AccumulateFrom(funcs, inputs, gxs, 0, Walk(vars, q, processed, None));
      q', failure := q, None;
      var i := 0;
      while i < |inputs| && i < |gxs|
        invariant funcs == old(funcs)
        invariant Inv(funcs, Walk(vars, q', processed, None)) && RefsIn(inputs, |vars|)
        invariant AccumulateFrom(funcs, inputs, gxs, i, Walk(vars, q', processed, None)) == target
        invariant failure.None?
        decreases |inputs| - i
      {
        ghost var w := Walk(vars, q', processed, None);
        ghost var n := AccumulatePair(funcs, inputs[i], gxs[i], w);
        q', failure := AccumulatePairInto(inputs[i], gxs[i], q', processed);
        assert Walk(vars, q', processed, failure) == n;
        if failure.Some? {
          assert AccumulateFrom(funcs, inputs, gxs, i, w) == n;
          return;
        }
        assert AccumulateFrom(funcs, inputs, gxs, i, w) == AccumulateFrom(funcs, inputs, gxs, i + 1, n);
        i := i + 1;
      }
      assert AccumulateFrom(funcs, inputs, gxs, i, Walk(vars, q', processed, None)) == Walk(vars, q', processed, None);
    }

    /** Lines 101-102: `y.cleargrad()` for each `y` in `ys`. */
    method ClearOutputs(ys: seq<nat>)
      requires RefsIn(ys, |vars|)
      modifies this
      ensures vars == ClearGrads(old(vars), ys) && funcs == old(funcs)
    {
      for i := 0 to |ys|
        invariant funcs == old(funcs) && |vars| == old(|vars|)
        invariant ClearGrads(vars, ys[i..]) == ClearGrads(old(vars), ys)
      {
        assert ys[i..][1..] == ys[i + 1..];
        ClearGrad(ys[i]);
      }
      assert ys[|ys|..] == [];
    }

    /** One iteration of the `while funcs` loop: pop the last function, run
        its `backward` on its outputs' gradients, accumulate into its inputs
        and, unless `retainGrad`, clear its outputs' gradients. */
    method Process(q: Queue, ghost processed: seq<nat>, retainGrad: bool)
      returns (q': Queue, ghost processed': seq<nat>, failure: Option<Error>)
      requires Inv(funcs, Walk(vars, q, processed, None)) && q.items != []
      modifies this
      ensures funcs == old(funcs)
      ensures Walk(vars, q', processed', failure)
              == Step(funcs, retainGrad, Walk(old(vars), q, processed, None))
    {
      ghost var w := Walk(vars, q, processed, None);
      PopKeepsInv(funcs, q);
      var f := q.items[|q.items| - 1];
      q' := q.(items := q.items[..|q.items| - 1]);
      processed' := processed + [f];
      assert Walk(vars, q', processed', None) == Popped(w);
      var rec := funcs[f].rec.value;
      var gys := GradsOf(vars, rec.outputs);
      var gxs := Ops.LocalBackward(funcs[f].op, DataOf(vars, rec.inputs), gys);
      if gxs.Err? {
        failure := Some(gxs.error);
        return;
      }
      q', failure := AccumulateInto(rec.inputs, gxs.value, q', processed');
      if failure.None? && !retainGrad {
        ClearOutputs(rec.outputs);
      }
    }

    /** `v.backward(retain_grad)`: seed a missing gradient with one, enqueue
        `v.creator`, then pop and process functions until the worklist is
        empty. The arena ends exactly as `BackwardWalk` says, including when
        an exception stops the traversal part-way. */
    method Backward(v: nat, retainGrad: bool) returns (r: Outcome)
      requires Valid() && v < |vars|
      modifies this
      ensures funcs == old(funcs)
      ensures var w := BackwardWalk(old(vars), old(funcs), v, retainGrad);
              vars == w.vars && r == (if w.failure.None? then Pass else Fail(w.failure.value))
    {
      ghost var target := BackwardWalk(vars, funcs, v, retainGrad);
      if vars[v].grad.None? {
        vars := vars[v := vars[v].(grad := Some(1))];
      }
      assert vars == Seed(old(vars), v);
      SameStructureKeepsShape(old(vars), vars, funcs);
      var a := AddFuncTo(Empty, vars[v].creator);
      if a.Err? {
        return Fail(a.error);
      }
      var q := a.value;
      ghost var processed: seq<nat> := [];
      var failure: Option<Error> := None;
      while q.items != []
        invariant funcs == old(funcs)
        invariant Inv(funcs, Walk(vars, q, processed, None))
        invariant Run(funcs, retainGrad, Walk(vars, q, processed, None)) == target
        decreases Unseen(funcs, q), |q.items|
      {
        ghost var w := Walk(vars, q, processed, None);
        assert Run(funcs, retainGrad, w) == Run(funcs, retainGrad, Step(funcs, retainGrad, w));
        q, processed, failure := Process(q, processed, retainGrad);
        if failure.Some? {
          return Fail(failure.value);
        }
      }
      r := Pass;
    }
  }

  /** The fresh leaves made from the values `ys`. */
  function Leaves(ys: seq<int>): seq<Variable>
  {
    seq(|ys|, i requires 0 <= i < |ys| => Leaf(ys[i], None))
  }

  /** `n` consecutive indices from `from`. */
  function Indices(from: nat, n: nat): seq<nat>
  {
    seq(n, i requires 0 <= i < n => from + i)
  }

  /** `set_creator` applied to each of `ys` in order, for a creator at
      priority `priority - 1`: every listed variable gets the creator and
      the priority, and nothing else changes. */
  function WithCreator(vars: seq<Variable>, ys: seq<nat>, f: nat, priority: nat): (r: seq<Variable>)
    requires RefsIn(ys, |vars|)
    decreases ys
    ensures |r| == |vars|
    ensures forall k | 0 <= k < |vars| ::
      r[k] == if k in ys then vars[k].(creator := Some(f), priority := priority) else vars[k]
  {
    if ys == [] then vars
    else WithCreator(vars[ys[0] := vars[ys[0]].(creator := Some(f), priority := priority)], ys[1..], f, priority)
  }

  /** Linking the one appended output to `f`. */
  lemma LinkedOutput(vars: seq<Variable>, added: seq<Variable>, data: int, outputs: seq<nat>,
                      f: nat, p: nat, q: nat, linked: seq<Variable>)
    requires added == vars + [Leaf(data, None)] && outputs == [|vars|] && p == q
    requires linked == WithCreator(added, outputs, f, q + 1)
    ensures linked == vars + [Variable(data, None, None, Some(f), p + 1)]
  {
    Appended(vars, linked, Variable(data, None, None, Some(f), p + 1));
  }

  /** `b` is `a` with `v` appended. */
  lemma Appended(a: seq<Variable>, b: seq<Variable>, v: Variable)
    requires |b| == |a| + 1 && (forall k | 0 <= k < |a| :: b[k] == a[k]) && b[|a|] == v
    ensures b == a + [v]
  {
  }

  /** One step of the stable sort moves the appended element one place left. */
  lemma MoveLeft(items: seq<nat>, k: nat, f: nat)
    requires 0 < k <= |items|
    ensures (items[..k] + [f] + items[k..])[k - 1 := f][k := items[k - 1]]
            == items[..k - 1] + [f] + items[k - 1..]
  {
    var before := (items[..k] + [f] + items[k..])[k - 1 := f][k := items[k - 1]];
    var after := items[..k - 1] + [f] + items[k - 1..];
    forall i | 0 <= i < |after|
      ensures before[i] == after[i]
    {
      SplicedAt(items, k, f, i);
      SplicedAt(items, k - 1, f, i);
    }
  }

  /** Appending a leaf keeps the arena well formed. */
  lemma LeafKeepsWellFormed(vars: seq<Variable>, funcs: seq<Function>, data: int)
    requires Linked(vars, funcs)
    ensures Linked(vars + [Leaf(data, None)], funcs)
    ensures WellFormed(vars, funcs) ==> WellFormed(vars + [Leaf(data, None)], funcs)
  {
    var vars' := vars + [Leaf(data, None)];
    assert vars'[|vars|].creator.None?;
    if !WellFormed(vars, funcs) {
      return;
    }
    forall v | 0 <= v < |vars'| && vars'[v].creator.Some?
      ensures CreatorLinked(vars', funcs, v)
    {
      assert vars'[v] == vars[v];
      assert CreatorLinked(vars, funcs, v);
    }
    forall f | 0 <= f < |funcs| && funcs[f].rec.Some?
      ensures RecordLinked(vars', funcs, f)
    {
      assert RecordLinked(vars, funcs, f);
    }
  }

  /** The state `Call` leaves behind when it appends the output `data` of
      a call of `f` on `inputs`, recorded or not. */
  function AfterCall(vars: seq<Variable>, funcs: seq<Function>, f: nat, inputs: seq<nat>, data: int, linked: bool): (r: (seq<Variable>, seq<Function>))
    requires f < |funcs| && RefsIn(inputs, |vars|) && |inputs| > 0
    ensures |r.0| == |vars| + 1 && |r.1| == |funcs|
  {
    if linked then
      var p := MaxPriority(vars, inputs);
      (vars + [Variable(data, None, None, Some(f), p + 1)],
       funcs[f := Function(funcs[f].op, Some(Record(p, inputs, [|vars|])))])
    else
      (vars + [Leaf(data, None)], funcs)
  }

  /** Whether the call was recorded or not, a linked arena stays linked, and
      a well-formed one stays well formed when `f` is fresh and gets as many
      inputs as its operation takes. */
  lemma KeptWellFormed(vars: seq<Variable>, funcs: seq<Function>, f: nat, inputs: seq<nat>, data: int, linked: bool,
                        vars': seq<Variable>, funcs': seq<Function>)
    requires f < |funcs| && RefsIn(inputs, |vars|) && |inputs| > 0
    requires (vars', funcs') == AfterCall(vars, funcs, f, inputs, data, linked)
    ensures Linked(vars, funcs) ==> Linked(vars', funcs')
    ensures WellFormed(vars, funcs) && funcs[f].rec.None? && |inputs| == Ops.Arity(funcs[f].op) ==> WellFormed(vars', funcs')
  {
    if !Linked(vars, funcs) {
      return;
    }
    if linked {
      var p := MaxPriority(vars, inputs);
      assert vars' == vars + [Variable(data, None, None, Some(f), p + 1)];
      assert funcs' == funcs[f := Function(funcs[f].op, Some(Record(p, inputs, [|vars|])))];
      LinkedAfterCall(vars, funcs, f, inputs, data);
      if WellFormed(vars, funcs) && funcs[f].rec.None? && |inputs| == Ops.Arity(funcs[f].op) {
        CallKeepsWellFormed(vars, funcs, f, inputs, data);
      }
    } else {
      assert vars' == vars + [Leaf(data, None)] && funcs' == funcs;
      LeafKeepsWellFormed(vars, funcs, data);
    }
  }

  /** A recorded call of a fresh function, appending its one output, keeps
      the arena linked. */
  lemma LinkedAfterCall(vars: seq<Variable>, funcs: seq<Function>, f: nat, inputs: seq<nat>, data: int)
    requires Linked(vars, funcs) && f < |funcs| && RefsIn(inputs, |vars|) && |inputs| > 0
    ensures var p := MaxPriority(vars, inputs);
            Linked(vars + [Variable(data, None, None, Some(f), p + 1)],
                   funcs[f := Function(funcs[f].op, Some(Record(p, inputs, [|vars|])))])
  {
  }

  /** A recorded call of a function never called before, with the right
      number of inputs, keeps the arena well formed: the new output links to
      `f`, `f` sits at the largest input priority, and nothing that was
      linked before refers to `f`. */
  lemma CallKeepsWellFormed(vars: seq<Variable>, funcs: seq<Function>, f: nat, inputs: seq<nat>, data: int)
    requires WellFormed(vars, funcs) && f < |funcs| && funcs[f].rec.None?
    requires RefsIn(inputs, |vars|) && |inputs| == Ops.Arity(funcs[f].op)
    ensures var p := MaxPriority(vars, inputs);
            WellFormed(vars + [Variable(data, None, None, Some(f), p + 1)],
                       funcs[f := Function(funcs[f].op, Some(Record(p, inputs, [|vars|])))])
  {
    var p := MaxPriority(vars, inputs);
    var vars' := vars + [Variable(data, None, None, Some(f), p + 1)];
    var funcs' := funcs[f := Function(funcs[f].op, Some(Record(p, inputs, [|vars|])))];
    LinkedAfterCall(vars, funcs, f, inputs, data);
    CreatorsAfterCall(vars, funcs, f, p, vars', funcs');
    RecordsAfterCall(vars, funcs, f, inputs, p, vars', funcs');
  }

  /** After the call, every creator is still linked: the new output's is `f`,
      and every older creator is some other, unchanged function. */
  lemma CreatorsAfterCall(vars: seq<Variable>, funcs: seq<Function>, f: nat, p: nat,
                          vars': seq<Variable>, funcs': seq<Function>)
    requires WellFormed(vars, funcs) && f < |funcs| && funcs[f].rec.None?
    requires |vars'| == |vars| + 1 && (forall v | 0 <= v < |vars| :: vars'[v] == vars[v])
    requires vars'[|vars|].creator == Some(f) && vars'[|vars|].priority == p + 1
    requires |funcs'| == |funcs| && (forall g | 0 <= g < |funcs| && g != f :: funcs'[g] == funcs[g])
    requires funcs'[f].rec.Some? && funcs'[f].rec.value.priority == p && funcs'[f].rec.value.outputs == [|vars|]
    requires Linked(vars', funcs')
    ensures forall v | 0 <= v < |vars'| && vars'[v].creator.Some? :: CreatorLinked(vars', funcs', v)
  {
    forall v | 0 <= v < |vars'| && vars'[v].creator.Some?
      ensures CreatorLinked(vars', funcs', v)
    {
      if v < |vars| {
        assert CreatorLinked(vars, funcs, v);
      }
    }
  }

  /** After the call, every record is still linked: `f`'s new record sits at
      the largest input priority, and every older record is unchanged and
      names only unchanged variables. */
  lemma RecordsAfterCall(vars: seq<Variable>, funcs: seq<Function>, f: nat, inputs: seq<nat>, p: nat,
                         vars': seq<Variable>, funcs': seq<Function>)
    requires WellFormed(vars, funcs) && f < |funcs| && RefsIn(inputs, |vars|)
    requires |inputs| == Ops.Arity(funcs[f].op)
    requires forall i | 0 <= i < |inputs| :: vars[inputs[i]].priority <= p
    requires |vars'| == |vars| + 1 && (forall v | 0 <= v < |vars| :: vars'[v] == vars[v])
    requires vars'[|vars|].creator == Some(f)
    requires |funcs'| == |funcs| && (forall g | 0 <= g < |funcs| && g != f :: funcs'[g] == funcs[g])
    requires funcs'[f] == Function(funcs[f].op, Some(Record(p, inputs, [|vars|])))
    requires Linked(vars', funcs')
    ensures forall g | 0 <= g < |funcs'| && funcs'[g].rec.Some? :: RecordLinked(vars', funcs', g)
  {
    forall g | 0 <= g < |funcs'| && funcs'[g].rec.Some?
      ensures RecordLinked(vars', funcs', g)
    {
      if g != f {
        assert RecordLinked(vars, funcs, g);
        var rec := funcs[g].rec.value;
        forall k | 0 <= k < |rec.outputs|
          ensures vars'[rec.outputs[k]].creator == Some(g)
        {
          assert vars'[rec.outputs[k]] == vars[rec.outputs[k]];
        }
        forall i | 0 <= i < |rec.inputs|
          ensures vars'[rec.inputs[i]].priority <= rec.priority
        {
          assert vars'[rec.inputs[i]] == vars[rec.inputs[i]];
        }
      } else {
        forall i | 0 <= i < |inputs|
          ensures vars'[inputs[i]].priority <= p
        {
          assert vars'[inputs[i]] == vars[inputs[i]];
        }
      }
    }
  }
}
