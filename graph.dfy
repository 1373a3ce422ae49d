/** The two kinds of graph node as they sit in the arena (the program's
    heap), and the invariants a graph built through `Function.__call__`
    keeps. An index into `vars` or `funcs` stands for a Python reference. */
module Graph {
  import opened Base
  import Ops

  /** A `Variable`: raw value, optional name, optional gradient, optional
      creator (an index into `funcs`) and priority (the generation depth). */
  datatype Variable = Variable(
    data: int,
    name: Option<string>,
    grad: Option<int>,
    creator: Option<nat>,
    priority: nat)

  /** The attributes a `Function` acquires on a call made while
      `enable_backprop` is on: `priority`, `inputs` and `outputs`. */
  datatype Record = Record(priority: nat, inputs: seq<nat>, outputs: seq<nat>)

  /** A `Function` object: which operation it is and, once it has been called
      with recording on, its recorded attributes. Before that the object has
      no `priority`, `inputs` or `outputs` attribute at all. */
  datatype Function = Function(op: Ops.Op, rec: Option<Record>)

  /** `Variable(data, name)`: no gradient, no creator, priority 0. */
  function Leaf(data: int, name: Option<string>): (r: Variable)
    ensures r.data == data && r.name == name
    ensures r.grad.None? && r.creator.None? && r.priority == 0
  {
    Variable(data, name, None, None, 0)
  }

  /** Every reference in the arena resolves: creators are functions of the
      arena, recorded inputs and outputs are variables of the arena. */
  predicate Linked(vars: seq<Variable>, funcs: seq<Function>)
  {
    (forall v | 0 <= v < |vars| :: vars[v].creator.Some? ==> vars[v].creator.value < |funcs|)
    && (forall f | 0 <= f < |funcs| :: funcs[f].rec.Some? ==>
          RefsIn(funcs[f].rec.value.inputs, |vars|) && RefsIn(funcs[f].rec.value.outputs, |vars|))
  }

  /** The shape of every graph built by `square`/`add`: a variable's creator
      is recorded, lists the variable among its outputs and sits one priority
      level below it; a recorded function has as many inputs as its `forward`
      takes and the one output it returns, its priority is at least that of
      each of its inputs, and its output names it as creator. */
  predicate WellFormed(vars: seq<Variable>, funcs: seq<Function>)
  {
    Linked(vars, funcs)
    && (forall v | 0 <= v < |vars| && vars[v].creator.Some? ::
          CreatorLinked(vars, funcs, v))
    && (forall f | 0 <= f < |funcs| && funcs[f].rec.Some? ::
          RecordLinked(vars, funcs, f))
  }

  predicate CreatorLinked(vars: seq<Variable>, funcs: seq<Function>, v: nat)
    requires Linked(vars, funcs) && v < |vars| && vars[v].creator.Some?
  {
    var c := vars[v].creator.value;
    funcs[c].rec.Some?
    && vars[v].priority == funcs[c].rec.value.priority + 1
    && v in funcs[c].rec.value.outputs
  }

  predicate RecordLinked(vars: seq<Variable>, funcs: seq<Function>, f: nat)
    requires Linked(vars, funcs) && f < |funcs| && funcs[f].rec.Some?
  {
    var rec := funcs[f].rec.value;
    |rec.inputs| == Ops.Arity(funcs[f].op) && |rec.outputs| == 1
    && (forall i | 0 <= i < |rec.inputs| :: vars[rec.inputs[i]].priority <= rec.priority)
    && (forall k | 0 <= k < |rec.outputs| :: vars[rec.outputs[k]].creator == Some(f))
  }

  /** `a` and `b` differ at most in gradients. */
  predicate SameStructure(a: seq<Variable>, b: seq<Variable>)
  {
    |a| == |b|
    && forall k | 0 <= k < |a| :: a[k].(grad := None) == b[k].(grad := None)
  }

  /** Changing only gradients keeps every reference and every priority, so it
      keeps the arena linked and well formed. */
  lemma SameStructureKeepsShape(a: seq<Variable>, b: seq<Variable>, funcs: seq<Function>)
    requires SameStructure(a, b)
    ensures Linked(a, funcs) ==> Linked(b, funcs)
    ensures WellFormed(a, funcs) ==> WellFormed(b, funcs)
  {
    assert forall k | 0 <= k < |a| :: a[k].creator == b[k].creator && a[k].priority == b[k].priority by {
      forall k | 0 <= k < |a| ensures a[k].creator == b[k].creator && a[k].priority == b[k].priority {
        assert a[k].(grad := None).creator == b[k].(grad := None).creator;
        assert a[k].(grad := None).priority == b[k].(grad := None).priority;
      }
    }
  }

  lemma SameStructureTrans(a: seq<Variable>, b: seq<Variable>, c: seq<Variable>)
    requires SameStructure(a, b) && SameStructure(b, c)
    ensures SameStructure(a, c)
  {
    forall k | 0 <= k < |a| ensures a[k].(grad := None) == c[k].(grad := None) {
      assert a[k].(grad := None) == b[k].(grad := None);
    }
  }

  /** `[x.data for x in inputs]`. */
  function DataOf(vars: seq<Variable>, xs: seq<nat>): (r: seq<int>)
    requires RefsIn(xs, |vars|)
    ensures |r| == |xs| && forall i | 0 <= i < |xs| :: r[i] == vars[xs[i]].data
  {
    seq(|xs|, i requires 0 <= i < |xs| => vars[xs[i]].data)
  }

  /** `[output.grad for output in f.outputs]`. */
  function GradsOf(vars: seq<Variable>, ys: seq<nat>): (r: seq<Option<int>>)
    requires RefsIn(ys, |vars|)
    ensures |r| == |ys| && forall i | 0 <= i < |ys| :: r[i] == vars[ys[i]].grad
  {
    seq(|ys|, i requires 0 <= i < |ys| => vars[ys[i]].grad)
  }

  /** `max([x.priority for x in inputs])`: an upper bound that is attained. */
  function MaxPriority(vars: seq<Variable>, xs: seq<nat>): (p: nat)
    requires RefsIn(xs, |vars|) && |xs| > 0
    ensures forall i | 0 <= i < |xs| :: vars[xs[i]].priority <= p
    ensures exists i | 0 <= i < |xs| :: vars[xs[i]].priority == p
  {
    if |xs| == 1 then vars[xs[0]].priority
    else
      var rest := MaxPriority(vars, xs[1..]);
      assert forall i | 1 <= i < |xs| :: xs[i] == xs[1..][i - 1];
      if vars[xs[0]].priority >= rest then vars[xs[0]].priority else rest
  }

  /** `max` reads only the inputs' priorities. */
  lemma {:induction false} MaxPriorityFrame(a: seq<Variable>, b: seq<Variable>, xs: seq<nat>)
    requires RefsIn(xs, |a|) && |xs| > 0 && |a| <= |b|
    requires forall k | 0 <= k < |a| :: b[k].priority == a[k].priority
    ensures MaxPriority(a, xs) == MaxPriority(b, xs)
  {
    if |xs| > 1 {
      MaxPriorityFrame(a, b, xs[1..]);
    }
  }
}
