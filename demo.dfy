/** The example run at the end of steps/step19.py: `x = 2`, `t = square(x)`,
    `y = add(square(t), square(t))`. The two squares of `t` make a diamond:
    `t`'s gradient arrives along two paths and must be summed before it is
    passed on to `x`. */
module Demo {
  import opened Base
  import opened Graph
  import opened Worklist
  import opened Traversal
  import opened Configuration
  import opened Engine
  import Ops

  /** The arena the example builds: `x`, `t`, the two squares of `t` and `y`,
      with their four function objects. */
  function DiamondVars(): seq<Variable>
  {
    [ Variable(2, Some("x"), None, None, 0),
      Variable(4, None, None, Some(0), 1),
      Variable(16, None, None, Some(1), 2),
      Variable(16, None, None, Some(2), 2),
      Variable(32, Some("y"), None, Some(3), 3) ]
  }

  function DiamondFuncs(): seq<Function>
  {
    [ Function(Ops.Square, Some(Record(0, [0], [1]))),
      Function(Ops.Square, Some(Record(1, [1], [2]))),
      Function(Ops.Square, Some(Record(1, [1], [3]))),
      Function(Ops.Add, Some(Record(2, [2, 3], [4]))) ]
  }

  /** The diamond with the given gradients. */
  function Graded(g0: Option<int>, g1: Option<int>, g2: Option<int>, g3: Option<int>, g4: Option<int>): seq<Variable>
  {
    var d := DiamondVars();
    [d[0].(grad := g0), d[1].(grad := g1), d[2].(grad := g2), d[3].(grad := g3), d[4].(grad := g4)]
  }

  const S3: set<nat> := {1, 2, 3}
  const S4: set<nat> := {0, 1, 2, 3}

  /** The walks between the iterations of the `while funcs` loop. */
  function Seeded(): Walk
  {
    Walk(Graded(None, None, None, None, Some(1)), Queue([3], {3}), [], None)
  }

  function AfterAdd(): Walk
  {
    Walk(Graded(None, None, Some(1), Some(1), None), Queue([1, 2], S3), [3], None)
  }

  function AfterSecondSquare(): Walk
  {
    Walk(Graded(None, Some(8), Some(1), None, None), Queue([0, 1], S4), [3, 2], None)
  }

  function AfterFirstSquare(): Walk
  {
    Walk(Graded(None, Some(16), None, None, None), Queue([0], S4), [3, 2, 1], None)
  }

  function Finished(): Walk
  {
    Walk(Graded(Some(64), None, None, None, None), Queue([], S4), [3, 2, 1, 0], None)
  }

  /** `add_func(y.creator)` on the empty worklist. */
  lemma EnqueueAdd()
    ensures AddFunc(DiamondFuncs(), Empty, Some(3)) == Ok(Queue([3], {3}))
  {
    var funcs := DiamondFuncs();
    var r := AddFunc(funcs, Empty, Some(3));
    assert r.Ok? && r.value.seen == {3};
    assert InsertionPoint(funcs, [], 3) == 0;
    assert r.value.items == [][..0] + [3] + [][0..] == [3];
  }

  lemma EnqueueFirstSquare()
    ensures AddFunc(DiamondFuncs(), Queue([], {3}), Some(1)) == Ok(Queue([1], {1, 3}))
  {
    var funcs := DiamondFuncs();
    var q := Queue([], {3});
    assert QueueInv(funcs, q);
    var r := AddFunc(funcs, q, Some(1));
    assert r.Ok? && r.value.seen == {1, 3};
    assert InsertionPoint(funcs, [], 1) == 0;
    assert r.value.items == [][..0] + [1] + [][0..] == [1];
  }

  /** Equal priorities keep insertion order: the second square of `t` goes
      after the first. */
  lemma EnqueueSecondSquare()
    ensures AddFunc(DiamondFuncs(), Queue([1], {1, 3}), Some(2)) == Ok(Queue([1, 2], S3))
  {
    var funcs := DiamondFuncs();
    var q := Queue([1], {1, 3});
    assert QueueInv(funcs, q);
    var r := AddFunc(funcs, q, Some(2));
    assert r.Ok? && r.value.seen == S3;
    assert InsertionPoint(funcs, [1], 2) == 1;
    assert r.value.items == [1][..1] + [2] + [1][1..] == [1, 2];
  }

  /** A lower priority goes to the front. */
  lemma EnqueueSquareOfX()
    ensures AddFunc(DiamondFuncs(), Queue([1], S3), Some(0)) == Ok(Queue([0, 1], S4))
  {
    var funcs := DiamondFuncs();
    var q := Queue([1], S3);
    assert QueueInv(funcs, q);
    var r := AddFunc(funcs, q, Some(0));
    assert r.Ok? && r.value.seen == S4;
    assert InsertionPoint(funcs, [], 0) == 0;
    assert InsertionPoint(funcs, [1], 0) == 0;
    assert r.value.items == [1][..0] + [0] + [1][0..] == [0, 1];
  }

  /** Gradients play no part in the links. */
  lemma GradedLinked(g0: Option<int>, g1: Option<int>, g2: Option<int>, g3: Option<int>, g4: Option<int>)
    ensures Linked(Graded(g0, g1, g2, g3, g4), DiamondFuncs())
  {
    assert Graded(g0, g1, g2, g3, g4)[0].creator.None?;
  }

  /** Setting one gradient of the diamond. */
  lemma Regraded(g0: Option<int>, g1: Option<int>, g2: Option<int>, g3: Option<int>, g4: Option<int>, k: nat, v: Option<int>)
    requires k < 5
    ensures var vars := Graded(g0, g1, g2, g3, g4);
      vars[k := vars[k].(grad := v)]
      == Graded(if k == 0 then v else g0, if k == 1 then v else g1, if k == 2 then v else g2,
                if k == 3 then v else g3, if k == 4 then v else g4)
  {
  }

  /** Clearing the gradient of a single output. */
  lemma ClearOne(vars: seq<Variable>, k: nat)
    requires k < |vars|
    ensures ClearGrads(vars, [k]) == vars[k := vars[k].(grad := None)]
  {
    assert [k][1..] == [];
  }

  /** One pass of the accumulation loop into a non-leaf whose creator is
      then offered to `add_func`. */
  lemma PairEnqueues(funcs: seq<Function>, x: nat, gx: Option<int>, w: Walk, g: Option<int>, q: Queue)
    requires Inv(funcs, w) && w.failure.None? && x < |w.vars|
    requires Accumulated(w.vars[x].grad, gx) == Ok(g) && w.vars[x].creator.Some?
    requires w.vars[x].creator.value < |funcs| && AddFunc(funcs, w.queue, w.vars[x].creator) == Ok(q)
    ensures AccumulatePair(funcs, x, gx, w) == w.(vars := w.vars[x := w.vars[x].(grad := g)], queue := q)
  {
  }

  /** One pass of the accumulation loop into a leaf. */
  lemma PairAtLeaf(funcs: seq<Function>, x: nat, gx: Option<int>, w: Walk, g: Option<int>)
    requires Inv(funcs, w) && w.failure.None? && x < |w.vars|
    requires Accumulated(w.vars[x].grad, gx) == Ok(g) && w.vars[x].creator.None?
    ensures AccumulatePair(funcs, x, gx, w) == w.(vars := w.vars[x := w.vars[x].(grad := g)])
  {
  }

  /** The backward rule of `Square` on the popped function `f`: twice the
      input's value times the output's gradient. */
  lemma SquareGrad(funcs: seq<Function>, w: Walk, f: nat, x: nat, y: nat, g: int)
    requires Inv(funcs, w) && w.queue.items != [] && Last(w.queue.items) == f
    requires funcs[f].op == Ops.Square && funcs[f].rec.Some?
    requires funcs[f].rec.value.inputs == [x] && funcs[f].rec.value.outputs == [y]
    requires x < |w.vars| && y < |w.vars| && w.vars[y].grad == Some(g)
    ensures LocalGrads(funcs, w) == Ok([Some(2 * w.vars[x].data * g)])
  {
    var rec := funcs[f].rec.value;
    assert DataOf(w.vars, rec.inputs) == [w.vars[x].data];
    assert GradsOf(w.vars, rec.outputs) == [Some(g)];
  }

  /** A step whose local gradients and accumulation both succeed. */
  lemma StepIs(funcs: seq<Function>, retain: bool, w: Walk, gxs: seq<Option<int>>, a: Walk, r: Walk)
    requires Inv(funcs, w) && w.failure.None? && w.queue.items != []
    requires LocalGrads(funcs, w) == Ok(gxs)
    requires Inv(funcs, Popped(w))
    requires var rec := funcs[Last(w.queue.items)].rec.value;
      && AccumulateFrom(funcs, rec.inputs, gxs, 0, Popped(w)) == a && a.failure.None?
      && r == if retain then a else a.(vars := ClearGrads(a.vars, rec.outputs))
    ensures Step(funcs, retain, w) == r
  {
  }

  /** The accumulation loop over one input. */
  lemma AccumulateOne(funcs: seq<Function>, x: nat, gx: Option<int>, w: Walk, n: Walk)
    requires Inv(funcs, w) && w.failure.None? && x < |w.vars|
    requires AccumulatePair(funcs, x, gx, w) == n && n.failure.None?
    ensures AccumulateFrom(funcs, [x], [gx], 0, w) == n
  {
    AccumulateOneStarts(funcs, x, gx, w, n);
    AccumulateOneEnds(funcs, x, gx, w, n);
  }

  lemma AccumulateOneStarts(funcs: seq<Function>, x: nat, gx: Option<int>, w: Walk, n: Walk)
    requires Inv(funcs, w) && w.failure.None? && x < |w.vars|
    requires AccumulatePair(funcs, x, gx, w) == n && n.failure.None?
    ensures AccumulateFrom(funcs, [x], [gx], 0, w) == AccumulateFrom(funcs, [x], [gx], 1, n)
  {
    AccumulateFromUnfold(funcs, [x], [gx], 0, w);
  }

  lemma AccumulateOneEnds(funcs: seq<Function>, x: nat, gx: Option<int>, w: Walk, n: Walk)
    requires Inv(funcs, w) && w.failure.None? && x < |w.vars|
    requires AccumulatePair(funcs, x, gx, w) == n && n.failure.None?
    ensures AccumulateFrom(funcs, [x], [gx], 1, n) == n
  {
    AccumulateFromDone(funcs, [x], [gx], 1, n);
  }

  /** `add` passes `1` to the first square of `t`, whose function is
      enqueued. */
  lemma AddFirstPair()
    ensures var p := Walk(Seeded().vars, Queue([], {3}), [3], None);
      Inv(DiamondFuncs(), p)
      && AccumulatePair(DiamondFuncs(), 2, Some(1), p)
         == Walk(Graded(None, None, Some(1), None, Some(1)), Queue([1], {1, 3}), [3], None)
  {
    var funcs := DiamondFuncs();
    var p := Walk(Graded(None, None, None, None, Some(1)), Queue([], {3}), [3], None);
    GradedLinked(None, None, None, None, Some(1));
    assert QueueInv(funcs, p.queue);
    EnqueueFirstSquare();
    PairEnqueues(funcs, 2, Some(1), p, Some(1), Queue([1], {1, 3}));
    Regraded(None, None, None, None, Some(1), 2, Some(1));
  }

  /** ... and to the second, whose function is enqueued after it. */
  lemma AddSecondPair()
    ensures var n := Walk(Graded(None, None, Some(1), None, Some(1)), Queue([1], {1, 3}), [3], None);
      Inv(DiamondFuncs(), n)
      && AccumulatePair(DiamondFuncs(), 3, Some(1), n)
         == Walk(Graded(None, None, Some(1), Some(1), Some(1)), Queue([1, 2], S3), [3], None)
  {
    var funcs := DiamondFuncs();
    var n := Walk(Graded(None, None, Some(1), None, Some(1)), Queue([1], {1, 3}), [3], None);
    GradedLinked(None, None, Some(1), None, Some(1));
    assert QueueInv(funcs, n.queue);
    EnqueueSecondSquare();
    PairEnqueues(funcs, 3, Some(1), n, Some(1), Queue([1, 2], S3));
    Regraded(None, None, Some(1), None, Some(1), 3, Some(1));
  }

  lemma AddAccumulates()
    ensures var p := Walk(Seeded().vars, Queue([], {3}), [3], None);
      Inv(DiamondFuncs(), p)
      && AccumulateFrom(DiamondFuncs(), [2, 3], [Some(1), Some(1)], 0, p)
         == Walk(Graded(None, None, Some(1), Some(1), Some(1)), Queue([1, 2], S3), [3], None)
  {
    var funcs := DiamondFuncs();
    AddFirstPair();
    AddSecondPair();
    var n := Walk(Graded(None, None, Some(1), None, Some(1)), Queue([1], {1, 3}), [3], None);
    var m := Walk(Graded(None, None, Some(1), Some(1), Some(1)), Queue([1, 2], S3), [3], None);
    assert AccumulateFrom(funcs, [2, 3], [Some(1), Some(1)], 2, m) == m;
    assert AccumulateFrom(funcs, [2, 3], [Some(1), Some(1)], 1, n) == m;
  }

  /** `add` runs first and passes `1` to both squares of `t`. */
  lemma AddStep()
    ensures Inv(DiamondFuncs(), Seeded()) && Step(DiamondFuncs(), false, Seeded()) == AfterAdd()
  {
    var funcs := DiamondFuncs();
    var w := Seeded();
    GradedLinked(None, None, None, None, Some(1));
    assert QueueInv(funcs, w.queue);
    assert Popped(w) == Walk(w.vars, Queue([], {3}), [3], None);
    assert LocalGrads(funcs, w) == Ok([Some(1), Some(1)]);
    AddAccumulates();
    var a := Walk(Graded(None, None, Some(1), Some(1), Some(1)), Queue([1, 2], S3), [3], None);
    ClearOne(a.vars, 4);
    Regraded(None, None, Some(1), Some(1), Some(1), 4, None);
    StepIs(funcs, false, w, [Some(1), Some(1)], a, AfterAdd());
  }

  /** The second square of `t` is popped first: its priority ties with the
      first square's and it was enqueued later. Its local gradient is
      `2 * 4 * 1 = 8`. */
  lemma SecondSquarePops()
    ensures var p := Walk(AfterAdd().vars, Queue([1], S3), [3, 2], None);
      Inv(DiamondFuncs(), AfterAdd()) && AfterAdd().queue.items != []
      && Popped(AfterAdd()) == p && Inv(DiamondFuncs(), p)
      && LocalGrads(DiamondFuncs(), AfterAdd()) == Ok([Some(8)])
  {
    AfterAddInv();
    PoppedInv(None, None, Some(1), Some(1), None, Queue([1], S3), [3, 2]);
    SquareGrad(DiamondFuncs(), AfterAdd(), 2, 1, 3, 1);
  }

  lemma AfterAddInv()
    ensures Inv(DiamondFuncs(), AfterAdd())
  {
    GradedLinked(None, None, Some(1), Some(1), None);
    assert QueueInv(DiamondFuncs(), AfterAdd().queue);
  }

  lemma AfterSecondSquareInv()
    ensures Inv(DiamondFuncs(), AfterSecondSquare())
  {
    GradedLinked(None, Some(8), Some(1), None, None);
    assert QueueInv(DiamondFuncs(), AfterSecondSquare().queue);
  }

  lemma AfterFirstSquareInv()
    ensures Inv(DiamondFuncs(), AfterFirstSquare())
  {
    GradedLinked(None, Some(16), None, None, None);
    assert QueueInv(DiamondFuncs(), AfterFirstSquare().queue);
  }

  /** The walk right after a pop, with the worklist that remains. */
  lemma PoppedInv(g0: Option<int>, g1: Option<int>, g2: Option<int>, g3: Option<int>, g4: Option<int>,
                  q: Queue, processed: seq<nat>)
    requires QueueInv(DiamondFuncs(), q)
    ensures Inv(DiamondFuncs(), Walk(Graded(g0, g1, g2, g3, g4), q, processed, None))
  {
    GradedLinked(g0, g1, g2, g3, g4);
  }

  /** `t` receives `8` and the square of `x` is enqueued. */
  lemma SecondSquarePair()
    ensures var p := Walk(AfterAdd().vars, Queue([1], S3), [3, 2], None);
      Inv(DiamondFuncs(), p)
      && AccumulatePair(DiamondFuncs(), 1, Some(8), p)
         == Walk(Graded(None, Some(8), Some(1), Some(1), None), Queue([0, 1], S4), [3, 2], None)
  {
    var funcs := DiamondFuncs();
    var p := Walk(Graded(None, None, Some(1), Some(1), None), Queue([1], S3), [3, 2], None);
    GradedLinked(None, None, Some(1), Some(1), None);
    assert QueueInv(funcs, p.queue);
    EnqueueSquareOfX();
    PairEnqueues(funcs, 1, Some(8), p, Some(8), Queue([0, 1], S4));
    Regraded(None, None, Some(1), Some(1), None, 1, Some(8));
  }

  lemma SecondSquareStep()
    ensures Inv(DiamondFuncs(), AfterAdd()) && Step(DiamondFuncs(), false, AfterAdd()) == AfterSecondSquare()
  {
    var funcs := DiamondFuncs();
    var p := Walk(AfterAdd().vars, Queue([1], S3), [3, 2], None);
    var a := Walk(Graded(None, Some(8), Some(1), Some(1), None), Queue([0, 1], S4), [3, 2], None);
    SecondSquarePops();
    SecondSquarePair();
    AccumulateOne(funcs, 1, Some(8), p, a);
    ClearOne(a.vars, 3);
    Regraded(None, Some(8), Some(1), Some(1), None, 3, None);
    StepIs(funcs, false, AfterAdd(), [Some(8)], a, AfterSecondSquare());
  }

  /** Then the first square of `t`, with the same local gradient. */
  lemma FirstSquarePops()
    ensures var w, p := AfterSecondSquare(), Walk(AfterSecondSquare().vars, Queue([0], S4), [3, 2, 1], None);
      Inv(DiamondFuncs(), w) && w.queue.items != []
      && Popped(w) == p && Inv(DiamondFuncs(), p)
      && LocalGrads(DiamondFuncs(), w) == Ok([Some(8)])
  {
    AfterSecondSquareInv();
    PoppedInv(None, Some(8), Some(1), None, None, Queue([0], S4), [3, 2, 1]);
    SquareGrad(DiamondFuncs(), AfterSecondSquare(), 1, 1, 2, 1);
  }

  /** `t`'s gradient becomes `8 + 8`; the square of `x` is already seen, so
      the worklist keeps it once. */
  lemma FirstSquarePair()
    ensures var p := Walk(AfterSecondSquare().vars, Queue([0], S4), [3, 2, 1], None);
      Inv(DiamondFuncs(), p)
      && AccumulatePair(DiamondFuncs(), 1, Some(8), p)
         == Walk(Graded(None, Some(16), Some(1), None, None), Queue([0], S4), [3, 2, 1], None)
  {
    var funcs := DiamondFuncs();
    var p := Walk(Graded(None, Some(8), Some(1), None, None), Queue([0], S4), [3, 2, 1], None);
    GradedLinked(None, Some(8), Some(1), None, None);
    assert QueueInv(funcs, p.queue);
    assert AddFunc(funcs, p.queue, Some(0)) == Ok(p.queue);
    PairEnqueues(funcs, 1, Some(8), p, Some(16), p.queue);
    Regraded(None, Some(8), Some(1), None, None, 1, Some(16));
  }

  lemma FirstSquareStep()
    ensures Inv(DiamondFuncs(), AfterSecondSquare())
      && Step(DiamondFuncs(), false, AfterSecondSquare()) == AfterFirstSquare()
  {
    var funcs := DiamondFuncs();
    var p := Walk(AfterSecondSquare().vars, Queue([0], S4), [3, 2, 1], None);
    var a := Walk(Graded(None, Some(16), Some(1), None, None), Queue([0], S4), [3, 2, 1], None);
    FirstSquarePops();
    FirstSquarePair();
    AccumulateOne(funcs, 1, Some(8), p, a);
    ClearOne(a.vars, 2);
    Regraded(None, Some(16), Some(1), None, None, 2, None);
    StepIs(funcs, false, AfterSecondSquare(), [Some(8)], a, AfterFirstSquare());
  }

  /** Last, the square of `x`, whose local gradient is `2 * 2 * 16 = 64`. */
  lemma SquareOfXPops()
    ensures var w, p := AfterFirstSquare(), Walk(AfterFirstSquare().vars, Queue([], S4), [3, 2, 1, 0], None);
      Inv(DiamondFuncs(), w) && w.queue.items != []
      && Popped(w) == p && Inv(DiamondFuncs(), p)
      && LocalGrads(DiamondFuncs(), w) == Ok([Some(64)])
  {
    AfterFirstSquareInv();
    PoppedInv(None, Some(16), None, None, None, Queue([], S4), [3, 2, 1, 0]);
    SquareGrad(DiamondFuncs(), AfterFirstSquare(), 0, 0, 1, 16);
  }

  /** `x` is a leaf: it takes the gradient and enqueues nothing. */
  lemma SquareOfXPair()
    ensures var p := Walk(AfterFirstSquare().vars, Queue([], S4), [3, 2, 1, 0], None);
      Inv(DiamondFuncs(), p)
      && AccumulatePair(DiamondFuncs(), 0, Some(64), p)
         == Walk(Graded(Some(64), Some(16), None, None, None), Queue([], S4), [3, 2, 1, 0], None)
  {
    var funcs := DiamondFuncs();
    var p := Walk(Graded(None, Some(16), None, None, None), Queue([], S4), [3, 2, 1, 0], None);
    GradedLinked(None, Some(16), None, None, None);
    assert QueueInv(funcs, p.queue);
    PairAtLeaf(funcs, 0, Some(64), p, Some(64));
    Regraded(None, Some(16), None, None, None, 0, Some(64));
  }

  lemma SquareOfXStep()
    ensures Inv(DiamondFuncs(), AfterFirstSquare())
      && Step(DiamondFuncs(), false, AfterFirstSquare()) == Finished()
  {
    var funcs := DiamondFuncs();
    var p := Walk(AfterFirstSquare().vars, Queue([], S4), [3, 2, 1, 0], None);
    var a := Walk(Graded(Some(64), Some(16), None, None, None), Queue([], S4), [3, 2, 1, 0], None);
    SquareOfXPops();
    SquareOfXPair();
    AccumulateOne(funcs, 0, Some(64), p, a);
    ClearOne(a.vars, 1);
    Regraded(Some(64), Some(16), None, None, None, 1, None);
    StepIs(funcs, false, AfterFirstSquare(), [Some(64)], a, Finished());
  }

  /** `y.backward()` on the diamond: `dy/dx = 4 * t * 2 * x = 64`. Every
      function runs once, `add` first and the square of `x` last, and with
      `retain_grad` off only the leaf `x` keeps a gradient. */
  lemma DiamondGradient()
    ensures var w := BackwardWalk(DiamondVars(), DiamondFuncs(), 4, false);
      && w.failure.None? && w.processed == [3, 2, 1, 0]
      && w.vars[0].grad == Some(64)
      && forall k | 1 <= k < |w.vars| :: w.vars[k].grad.None?
  {
    DiamondBackward();
    FinishedGrads(Finished());
  }

  lemma FinishedGrads(w: Walk)
    requires w == Finished()
    ensures w.failure.None? && w.processed == [3, 2, 1, 0]
    ensures w.vars[0].grad == Some(64) && forall k | 1 <= k < |w.vars| :: w.vars[k].grad.None?
  {
  }

  lemma DiamondBackward()
    ensures BackwardWalk(DiamondVars(), DiamondFuncs(), 4, false) == Finished()
  {
    var vars, funcs := DiamondVars(), DiamondFuncs();
    assert Linked(vars, funcs);
    assert Seed(vars, 4) == Seeded().vars;
    EnqueueAdd();
    RunFromAdd();
  }

  lemma RunFromAdd()
    ensures Inv(DiamondFuncs(), Seeded()) && Run(DiamondFuncs(), false, Seeded()) == Finished()
  {
    AddStep();
    RunFromSecondSquare();
    RunStepIs(DiamondFuncs(), false, Seeded(), AfterAdd());
  }

  lemma RunFromSecondSquare()
    ensures Inv(DiamondFuncs(), AfterAdd()) && Run(DiamondFuncs(), false, AfterAdd()) == Finished()
  {
    SecondSquareStep();
    RunFromFirstSquare();
    RunStepIs(DiamondFuncs(), false, AfterAdd(), AfterSecondSquare());
  }

  lemma RunFromFirstSquare()
    ensures Inv(DiamondFuncs(), AfterSecondSquare()) && Run(DiamondFuncs(), false, AfterSecondSquare()) == Finished()
  {
    FirstSquareStep();
    SquareOfXStep();
    RunStepIs(DiamondFuncs(), false, AfterSecondSquare(), AfterFirstSquare());
    RunStepIs(DiamondFuncs(), false, AfterFirstSquare(), Finished());
    GradedLinked(Some(64), None, None, None, None);
    assert QueueInv(DiamondFuncs(), Finished().queue);
    RunDone(DiamondFuncs(), false, Finished());
  }

  /** One iteration of the `while funcs` loop. */
  lemma RunStepIs(funcs: seq<Function>, retain: bool, w: Walk, r: Walk)
    requires Inv(funcs, w) && w.failure.None? && w.queue.items != [] && Step(funcs, retain, w) == r
    ensures Run(funcs, retain, w) == Run(funcs, retain, r)
  {
  }

  /** The loop ends once the worklist is empty. */
  lemma RunDone(funcs: seq<Function>, retain: bool, w: Walk)
    requires Inv(funcs, w) && w.queue.items == []
    ensures Run(funcs, retain, w) == w
  {
  }

  /** The example's graph has the shape every graph built by `square` and
      `add` has. */
  lemma DiamondWellFormed()
    ensures WellFormed(DiamondVars(), DiamondFuncs())
  {
    var vars, funcs := DiamondVars(), DiamondFuncs();
    assert Linked(vars, funcs);
    forall v | 0 <= v < |vars| && vars[v].creator.Some?
      ensures CreatorLinked(vars, funcs, v)
    {
      assert v == 1 || v == 2 || v == 3 || v == 4;
    }
    forall f | 0 <= f < |funcs| && funcs[f].rec.Some?
      ensures RecordLinked(vars, funcs, f)
    {
      assert f == 0 || f == 1 || f == 2 || f == 3;
    }
  }

  /** `x = Variable(np.array(2.0), 'x')` and `t = square(x)` on a fresh arena, with
      recording on. */
  method BuildSquare() returns (arena: Arena, config: Config)
    ensures arena.vars == [DiamondVars()[0], DiamondVars()[1]] && arena.funcs == [DiamondFuncs()[0]]
    ensures config.enableBackprop && fresh(arena)
  {
    config := new Config();
    arena := new Arena();
    var x := arena.NewVariable(2, Some("x"));
    var t := arena.Square(config, x);
  }

  /** `square(t)` twice, on the arena `BuildSquare` leaves. */
  method BuildSquaresOfT() returns (arena: Arena, config: Config)
    ensures var d, fs := DiamondVars(), DiamondFuncs();
      arena.vars == [d[0], d[1], d[2], d[3]] && arena.funcs == [fs[0], fs[1], fs[2]]
    ensures config.enableBackprop && fresh(arena)
  {
    arena, config := BuildSquare();
    var a := arena.Square(config, 1);
    var b := arena.Square(config, 1);
  }

  /** The statements of the example that build the graph: then
      `y = add(square(t), square(t))` and `y.name = 'y'`. */
  method BuildDiamond() returns (arena: Arena, x: nat, t: nat, y: nat)
    ensures arena.vars == DiamondVars() && arena.funcs == DiamondFuncs()
    ensures x == 0 && t == 1 && y == 4 && fresh(arena)
  {
    var config;
    arena, config := BuildSquaresOfT();
    x, t := 0, 1;
    y := arena.Add(config, 2, 3);
    arena.vars := arena.vars[y := arena.vars[y].(name := Some("y"))];
  }

  /** The example program: `x = Variable(np.array(2.0), 'x')`, `t = square(x)`,
      `y = add(square(t), square(t))`, `y.name = 'y'`. The program itself
      only prints `x`, `t` and `y`; the model adds a call of `y.backward()`.
      `x`, `t` and `y` hold `2`, `4` and `32`, and the traversal ends
      without an exception, with `x.grad == 64`. */
  method Example() returns (x: Variable, t: Variable, y: Variable, r: Outcome)
    ensures x.data == 2 && x.name == Some("x") && t.data == 4 && y.data == 32 && y.name == Some("y")
    ensures r == Pass && x.grad == Some(64) && t.grad.None? && y.grad.None?
  {
    var arena, xi, ti, yi := BuildDiamond();
    r := BackwardOnDiamond(arena);
    FinishedVariables(arena.vars);
    x, t, y := arena.vars[xi], arena.vars[ti], arena.vars[yi];
  }

  /** `y.backward()` on the arena the example builds. */
  method BackwardOnDiamond(arena: Arena) returns (r: Outcome)
    requires arena.vars == DiamondVars() && arena.funcs == DiamondFuncs()
    modifies arena
    ensures r == Pass && arena.vars == Finished().vars
  {
    DiamondWellFormed();
    DiamondBackward();
    r := arena.Backward(4, false);
  }

  lemma FinishedVariables(vars: seq<Variable>)
    requires vars == Finished().vars
    ensures |vars| == 5
    ensures vars[0] == Variable(2, Some("x"), Some(64), None, 0)
    ensures vars[1] == Variable(4, None, None, Some(0), 1)
    ensures vars[4] == Variable(32, Some("y"), None, Some(3), 3)
  {
  }
}
