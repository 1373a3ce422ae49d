# A verified model of DeZero's step 19 autodiff core

`steps/step19.py` holds a small reverse-mode automatic differentiation
engine, together with a process-wide switch that turns graph recording off.
A `Variable` holds a value, an optional name, an optional gradient, the
`Function` that created it and a priority (its generation depth). Calling a
`Function` (`Square` or `Add`, usually through the wrappers `square` and
`add`) computes `forward` on the raw values and wraps each result in a new
`Variable`. While `Config.enable_backprop` is on, each output is linked to
its creator, and the creator records its inputs, its outputs and the
largest input priority. `Variable.backward` seeds the gradient with one. It
then keeps a worklist of functions sorted by priority and pops the highest
one. It runs that function's `backward` rule on its outputs' gradients and
accumulates the results into its inputs, enqueueing their creators. Unless
`retain_grad` is set, it then clears the outputs' gradients.
`using_config` and `no_grad` override the switch for the length of a `with`
block and put the old value back afterwards.

The model is split into these modules:

- `Base`: `Option`, the exceptions the code can raise, `Result`, and the
  `Outcome` of a statement.
- `Ops`: what `Square` and `Add` compute forward and backward. It also
  proves that each backward rule is the vector-Jacobian product of its
  forward computation.
- `Graph`: the two kinds of node, as datatypes. The program's heap is
  modelled as two sequences, `vars` and `funcs`, and an index into them
  stands for a Python reference. The module also holds the invariants every
  graph built by `square` and `add` keeps.
- `Worklist`: the sorted list `funcs`, the set `seen_set`, and the inner
  helper `add_func`.
- `Traversal`: `backward` as a specification over values. One loop
  iteration is `Step`, the loop is `Run`, and the whole call is
  `BackwardWalk`.
- `Properties`: what `backward` guarantees, proved about `BackwardWalk`:
  each function runs at most once, in priority order, and a successful
  call runs exactly the functions reachable from the starting variable.
- `Configuration`: the `Config` object, `using_config` and `no_grad`.
- `Engine`: the class `Arena`. Its methods mirror the source's loops and
  field updates: they update `vars` and `funcs` in place and loop as the
  source does. Each method is proved to compute exactly the specification
  function for its part. `Connect` writes the whole record of a call
  (lines 115, 118 and 119) before the `set_creator` loop, and the
  `isinstance` wraps of lines 88-89 and 110-111 are folded into `Ops`.
- `Demo`: the example at the end of the file. It builds `x = 2`,
  `t = square(x)` and `y = add(square(t), square(t))`. The file only prints
  the three variables; the model adds a call of `y.backward()` to the
  example and shows that `x.grad` becomes 64.

Values and gradients are mathematical integers. `np.ones_like` is the
integer 1, and the `x ** 2` of `Square` is `x * x`.

A Function object has no `priority`, `inputs` or `outputs` attribute until
its first call with recording on, so `Function.rec` is an `Option`.
Reading an attribute that is missing is an `AttributeError`.

Python's `list.sort(key=...)` evaluates the key of every element. So
`add_func(None)` and `add_func` of a function that was never recorded both
raise `AttributeError` in line 80. `add_func` only ever appends to a sorted
list, and the stable sort then moves the new element left past every
element of strictly larger priority. `Worklist.InsertionPoint` gives that
position. `Engine.Arena.SortAppended` performs the sort as the swaps that
do this, and is proved to land on that position.

On a variable without a creator, `backward` does not stop after seeding:
line 82 calls `add_func(None)`, the `not in` test passes, and the sort in
line 80 raises `AttributeError`. `BackwardWalk` seeds the gradient and then
fails with `AttributeError` (see `Properties.BackwardRaisesOnlyOnLeaves`).

## Model

| member | source | states |
|---|---|---|
| Configuration.Config.constructor | steps/step19.py:5-9 | the one configuration object starts with `enable_backprop` true |
| Configuration.UsingConfig | steps/step19.py:12-19 | for `enable_backprop`, the block runs with the flag at `value` and its outcome, exception or not, is the call's outcome; the flag is restored afterwards in every case; any other attribute name raises `AttributeError` and changes nothing |
| Configuration.NoGrad | steps/step19.py:22-23 | the block runs with recording off, its outcome is returned, and the flag is restored |
| Graph.Leaf | steps/step19.py:28-33 | `Variable(data, name)` holds the value and the name, and has no gradient, no creator and priority 0 |
| Graph.MaxPriority | steps/step19.py:115 | the result is at least every input's priority and equal to one of them, i.e. `max` of the input priorities |
| Graph.MaxPriorityFrame | steps/step19.py:112-115 | creating the outputs before line 115 does not change the max of the inputs' priorities |
| Graph.DataOf | steps/step19.py:108 | `xs` has one entry per input, and entry `i` is input `i`'s value |
| Graph.GradsOf | steps/step19.py:86 | `gys` has one entry per output, and entry `i` is output `i`'s gradient or `None` |
| Ops.Forward | steps/step19.py:132-149 | `forward` succeeds exactly when it gets as many values as the operation takes (one for `Square`, two for `Add`), fails with `TypeError` otherwise, and returns one value |
| Ops.LocalBackward | steps/step19.py:135-152 | a `Square` rule succeeds exactly when it has an input and a present output gradient and returns one gradient; an `Add` rule returns the output gradient twice; a wrong gradient count is a `TypeError`; present gradients give present results |
| Ops.BackwardIsVectorJacobianProduct | steps/step19.py:132-152 | for both operations, the change of `forward` along any direction is its first-order term plus a remainder, and the gradients `backward` returns, paired with that direction, equal the output gradient times the first-order term |
| Worklist.InsertionPoint | steps/step19.py:80 | the position the stable sort gives an appended function: everything before it has priority at most the function's, everything after it a larger one |
| Worklist.InsertionPointIs | steps/step19.py:80 | that split of a sorted list is unique, so any position with the same two properties is the insertion point |
| Worklist.Priority | steps/step19.py:80 | the sort key `x.priority` is the recorded priority, and exists only for a function that has been recorded |
| Worklist.AddFunc | steps/step19.py:76-80 | `add_func(f)`: a seen function leaves the worklist unchanged; `None`, or an unseen function never recorded, raises `AttributeError`; otherwise the function is inserted once at its insertion point and marked seen, and no listed function is dropped; the result is sorted, has no duplicates and lists only seen functions |
| Worklist.InsertKeepsInv | steps/step19.py:78-80 | inserting an unseen function at its insertion point keeps the list sorted and free of duplicates, and adds no other element |
| Worklist.PopKeepsInv | steps/step19.py:85 | `funcs.pop()` keeps the worklist well formed; the popped function stays seen and is no longer listed |
| Worklist.PopTakesMax | steps/step19.py:85 | the popped function has the largest priority on the worklist |
| Traversal.AccumulatePair | steps/step19.py:92-98 | one pass of the accumulation: the gradient is assigned when unset and summed otherwise (adding `None` is a `TypeError`); only input `x` changes; a creator is enqueued only when it was unseen |
| Traversal.AccumulateFrom | steps/step19.py:91-98 | the `zip` loop from pair `i` on keeps the arena's shape and the worklist invariant and never forgets a seen function |
| Traversal.AccumulateEnqueues | steps/step19.py:97-98 | every function the accumulation adds to the worklist is an unseen creator of one of the inputs |
| Traversal.AccumulateTouches | steps/step19.py:91-95 | the accumulation changes only variables among the inputs |
| Traversal.AccumulateKeepsGrads | steps/step19.py:92-95 | a variable that has a gradient keeps one through the accumulation |
| Traversal.ClearGrads | steps/step19.py:100-102 | `y.cleargrad()` for every output: exactly the listed variables lose their gradient, and nothing else changes |
| Traversal.Step | steps/step19.py:85-102 | one loop iteration keeps the arena's shape and the invariant, appends the popped function to the processed list, and either inserts an unseen function or shortens the worklist, so the loop terminates |
| Traversal.Progress | steps/step19.py:84-98 | the termination measure: the number of unseen functions, then the worklist's length, decreases on every iteration |
| Traversal.Popped | steps/step19.py:85 | `funcs.pop()` removes the last listed function and records it as processed; the variables and `seen_set` are unchanged |
| Traversal.LocalGrads | steps/step19.py:86-89 | the popped function's rule on its outputs' gradients: more or fewer than one output is a `TypeError`; a result has one gradient per argument of `forward`; a present output gradient (and, for `Square`, an input) gives present gradients |
| Traversal.Accumulated | steps/step19.py:92-95 | the first contribution is assigned, a later one is added; adding `None` to a gradient, and only that, raises `TypeError` |
| Traversal.Run | steps/step19.py:84-102 | the `while funcs` loop ends, keeps the arena's shape, only extends the processed list and `seen_set`, and ends with an empty worklist unless an exception stopped it |
| Traversal.Seed | steps/step19.py:70-71 | an unset gradient becomes 1, a set one is kept, and no other variable changes |
| Traversal.BackwardWalk | steps/step19.py:69-102 | the whole call seeds, enqueues the creator and runs the loop, keeping every creator, priority and record |
| Properties.PopLedger | steps/step19.py:85 | popping keeps the processed functions distinct and off the worklist |
| Properties.AccumulateLedger | steps/step19.py:97-98 | enqueueing only unseen functions keeps processed functions off the worklist |
| Properties.StepLedger | steps/step19.py:84-102 | one iteration keeps the processed functions distinct and all of them seen |
| Properties.RunLedger | steps/step19.py:84-102 | the loop never processes a function twice |
| Properties.BackwardInvokesEachOnce | steps/step19.py:73-102 | every function's backward rule is invoked at most once per `backward` call, only functions reachable from `v` are invoked, and the number of iterations is at most the number of reachable functions |
| Properties.Reachable | steps/step19.py:82-98 | the functions reachable from `v`: `v.creator`, and the creator of every input of a reachable function |
| Properties.ReachesFeeds | steps/step19.py:97-98 | the creator of an input of a reachable function is reachable |
| Properties.StepFromStart | steps/step19.py:84-102 | an iteration lists and processes only reachable functions |
| Properties.EnqueuedFromStart | steps/step19.py:91-98 | the accumulation into a reachable function's inputs lists only reachable functions |
| Properties.RunFromStart | steps/step19.py:84-102 | the loop lists and processes only reachable functions |
| Properties.PairListed | steps/step19.py:92-98 | one pass of the accumulation drops no listed function, lists every function it marks seen, and marks the creator of `x` seen |
| Properties.AccumulateListed | steps/step19.py:91-98 | the `zip` loop drops no listed function and lists every function it marks seen |
| Properties.AccumulateSeesCreators | steps/step19.py:91-98 | a `zip` loop over every input that does not raise marks every input's creator seen |
| Properties.AccumulateClosed | steps/step19.py:91-98 | after the popped function's accumulation, every seen function is processed or listed, and every input creator of a processed function is seen |
| Properties.StepClosed | steps/step19.py:84-102 | an iteration that does not raise keeps that closure |
| Properties.RunClosed | steps/step19.py:84-102 | a loop that does not raise ends closed |
| Properties.ChainProcessed | steps/step19.py:84-98 | once the worklist is empty, a closed walk has processed every function of a chain of creators that starts at a seen function |
| Properties.ClosedCovers | steps/step19.py:82-98 | such a walk that has seen `v.creator` has processed every reachable function |
| Properties.BackwardStart | steps/step19.py:70-82 | from a variable with a recorded creator `c`, `backward` seeds, lists `[c]`, marks `c` seen and enters the loop |
| Properties.BackwardCoversReachable | steps/step19.py:69-102 | on a graph built by `square` and `add`, a successful `backward` invokes the rule of every function reachable from `v` |
| Properties.BackwardRunsAllReachable | steps/step19.py:69-102 | so a successful `backward` invokes exactly the reachable functions, once each, and loops once per reachable function |
| Properties.CreatorBelow | steps/step19.py:62-64 | on a well-formed graph the creator of an input of `f` has a strictly lower priority than `f` |
| Properties.PopOrdered | steps/step19.py:85 | popping keeps the processed priorities non-increasing and at least every listed priority |
| Properties.AccumulateOrdered | steps/step19.py:91-98 | the accumulation enqueues only functions below the one just processed |
| Properties.EnqueueOrdered | steps/step19.py:97-98 | enqueueing only such functions keeps the order |
| Properties.StepOrdered | steps/step19.py:84-102 | one iteration keeps the order |
| Properties.RunOrdered | steps/step19.py:84-102 | the loop keeps the order |
| Properties.BackwardInPriorityOrder | steps/step19.py:73-102 | on a graph built by `square` and `add`, functions are processed in non-increasing priority order |
| Properties.OutputNotLaterInput | steps/step19.py:62-64 | an output of a function is never an input of a function whose priority is at most its own |
| Properties.LeafNotOutput | steps/step19.py:100-102 | a variable without a creator is no function's output, so clearing never touches it |
| Properties.StepCleared | steps/step19.py:84-102 | without `retain_grad`, an iteration clears the popped function's outputs and keeps earlier processed outputs cleared |
| Properties.ClearedAfterStep | steps/step19.py:91-102 | after the accumulation and the clearing, every processed function's outputs are without a gradient |
| Properties.StaysCleared | steps/step19.py:91-102 | an earlier processed function's outputs stay cleared while a later one is processed |
| Properties.StepKeepsLeaves | steps/step19.py:91-102 | an iteration never takes a gradient away from a leaf |
| Properties.RunCleared | steps/step19.py:84-102 | without `retain_grad`, the loop keeps leaves' gradients and, unless it raised, ends with every processed output cleared |
| Properties.RunFirst | steps/step19.py:84-85 | the first function processed is the last one listed |
| Properties.BackwardClearsIntermediateGrads | steps/step19.py:69-102 | with `retain_grad=False`, a successful `backward` leaves every output of every processed function without a gradient, the starting variable included |
| Properties.StepRetains | steps/step19.py:84-102 | with `retain_grad=True`, an iteration takes no gradient away |
| Properties.RunRetains | steps/step19.py:84-102 | with `retain_grad=True`, the loop takes no gradient away |
| Properties.BackwardRetainsGrads | steps/step19.py:69-102 | with `retain_grad=True`, `v` ends with a gradient and every variable that had a gradient still has one, whether or not the call raises |
| Properties.BackwardKeepsLeafGrads | steps/step19.py:69-102 | with `retain_grad=False`, a leaf whose gradient is set keeps it, whether or not the call raises |
| Properties.WellFormedRecorded | steps/step19.py:80 | on a well-formed graph every creator has a `priority` attribute |
| Properties.AccumulateSucceeds | steps/step19.py:91-98 | present contributions into variables with recorded creators never raise |
| Properties.AccumulateSetsGrad | steps/step19.py:92-95 | after a successful accumulation of present contributions every input has a gradient |
| Properties.PairSucceeds | steps/step19.py:92-98 | one present contribution into a variable with a recorded creator never raises |
| Properties.LocalGradsPresent | steps/step19.py:86-89 | when the popped function's outputs all have gradients, its rule succeeds and returns one present gradient per input |
| Properties.AccumulateReady | steps/step19.py:91-98 | after the accumulation, every listed function's outputs have gradients |
| Properties.ClearKeepsReady | steps/step19.py:100-102 | clearing the popped function's outputs removes no gradient a listed function still reads |
| Properties.EnqueuedBelow | steps/step19.py:97-98 | a function on the worklist after the accumulation is below the popped one or was listed before |
| Properties.StepSucceeds | steps/step19.py:84-102 | on a well-formed graph whose listed functions all have output gradients, an iteration does not raise and keeps that property |
| Properties.RunSucceeds | steps/step19.py:84-102 | under the same conditions, the whole loop does not raise |
| Properties.BackwardRaisesOnlyOnLeaves | steps/step19.py:69-102 | on a graph built by `square` and `add`, `backward` returns normally exactly when the variable has a creator; on a leaf it seeds the gradient and raises `AttributeError` in `add_func(None)` |
| Properties.AccumulateSums | steps/step19.py:91-95 | assign-then-add sums every contribution a rule hands to a variable, also one passed twice as in `add(x, x)` |
| Properties.TotalAfter | steps/step19.py:92-95 | adding one contribution and then the rest gives the total of all of them |
| Engine.Arena.constructor | steps/step19.py:161-170 | the heap starts empty and valid |
| Engine.Arena.NewVariable | steps/step19.py:28-33 | `Variable(data, name)` appends a variable with that value and name, no gradient, no creator and priority 0; nothing else changes |
| Engine.Arena.NewFunction | steps/step19.py:140-141 | `Square()`, as in `square`, and `Add()` append a function object with no recorded attributes |
| Engine.Arena.SetCreator | steps/step19.py:62-64 | `creator` is assigned first; then the priority becomes the function's plus one, or, for a function never recorded, `AttributeError` is raised with the creator already set |
| Engine.Arena.ClearGrad | steps/step19.py:66-67 | only the variable's gradient becomes `None`; a second call changes nothing |
| Engine.Arena.NewOutputs | steps/step19.py:112 | one fresh leaf is appended per forward value, and their indices are returned in order |
| Engine.Arena.LinkOutputs | steps/step19.py:116-117 | the loop makes the function every output's creator, one priority above it |
| Engine.Arena.Connect | steps/step19.py:114-119 | with recording on, the function records the max input priority, its inputs and its outputs, and becomes each output's creator |
| Engine.Arena.Call | steps/step19.py:107-121 | `f(*inputs)`: a wrong count of inputs raises `TypeError` and changes nothing; otherwise one output is appended and returned unwrapped, as a leaf with recording off, or linked to `f` one level above its highest input with recording on |
| Engine.Arena.Emit | steps/step19.py:111-121 | the single forward value becomes a fresh output, linked to the function only when recording is on |
| Engine.Arena.Square | steps/step19.py:140-142 | `square(x)` appends a `Square` function and an output holding `x.data * x.data`, linked one level above `x` when recording is on, and keeps the heap valid and well formed |
| Engine.Arena.Add | steps/step19.py:155-158 | `add(x0, x1)` appends an `Add` function and an output holding the sum, linked one level above the higher input when recording is on, and keeps the heap valid and well formed |
| Engine.Arena.AddFuncTo | steps/step19.py:76-80 | the method computes exactly `add_func` |
| Engine.Arena.SortAppended | steps/step19.py:80 | sorting a sorted list with one appended function places it at its insertion point and keeps the rest in order |
| Engine.Arena.AccumulatePairInto | steps/step19.py:92-98 | one pass of the `zip` loop computes exactly `AccumulatePair` on the heap |
| Engine.Arena.AccumulateInto | steps/step19.py:91-98 | the `zip` loop computes exactly `AccumulateFrom` |
| Engine.Arena.ClearOutputs | steps/step19.py:100-102 | the clearing loop computes exactly `ClearGrads` |
| Engine.Arena.Process | steps/step19.py:85-102 | one loop iteration on the heap computes exactly `Step` |
| Engine.Arena.Backward | steps/step19.py:69-102 | `v.backward(retain_grad)` leaves the functions alone, leaves the variables as `BackwardWalk` says, and raises exactly the exception `BackwardWalk` ends with |
| Engine.WithCreator | steps/step19.py:116-117 | each listed output gets the creator and priority, and every other variable is unchanged |
| Engine.AfterCall | steps/step19.py:112-119 | the state a call leaves: one more variable, the same number of functions |
| Engine.KeptWellFormed | steps/step19.py:107-121 | a call, recorded or not, keeps a linked heap linked, and keeps a well-formed heap well formed when the function is fresh and gets as many inputs as it takes |
| Engine.LeafKeepsWellFormed | steps/step19.py:112 | appending a leaf keeps a linked heap linked and a well-formed heap well formed |
| Engine.LinkedAfterCall | steps/step19.py:114-119 | a recorded call keeps every reference resolvable |
| Engine.CallKeepsWellFormed | steps/step19.py:114-119 | a recorded call of a fresh function with the right number of inputs keeps the heap well formed |
| Engine.CreatorsAfterCall | steps/step19.py:116-117 | after such a call every creator is recorded, lists its output and sits one level below it |
| Engine.RecordsAfterCall | steps/step19.py:115-119 | after such a call every recorded function takes the right number of inputs, sits at least at each input's level, and names its output |
| Demo.EnqueueAdd | steps/step19.py:82 | `add_func(y.creator)` on the empty worklist lists the `Add` function |
| Demo.EnqueueFirstSquare | steps/step19.py:97-98 | in the example's run, `add_func` of the first square of `t` on the emptied worklist lists it and marks it seen beside `Add` |
| Demo.EnqueueSecondSquare | steps/step19.py:80 | a function whose priority ties with a listed one is placed after it |
| Demo.EnqueueSquareOfX | steps/step19.py:80 | a function of lower priority is placed in front |
| Demo.AddStep | steps/step19.py:84-102 | the first iteration runs `Add` and hands 1 to both squares of `t`, in one order |
| Demo.SecondSquareStep | steps/step19.py:84-102 | the second square of `t` runs next: the one enqueued later wins the tie, and `t` receives 8 |
| Demo.FirstSquareStep | steps/step19.py:84-102 | the first square of `t` adds another 8 to `t`, and the square of `x`, already seen, stays listed once |
| Demo.SquareOfXStep | steps/step19.py:84-102 | the square of `x` runs last and hands 64 to `x` |
| Demo.DiamondBackward | steps/step19.py:69-102 | `y.backward()` on the example's graph ends in exactly the expected state |
| Demo.DiamondGradient | steps/step19.py:69-102 | for `y = add(square(t), square(t))`, `t = square(x)` at `x = 2`: no exception, the functions run in the order `add`, second square, first square, square of `x`, `x.grad == 64`, and every other gradient is cleared |
| Demo.DiamondWellFormed | steps/step19.py:164-166 | the example's graph is well formed |
| Demo.BuildSquare | steps/step19.py:164-165 | `x = Variable(2, 'x')` and `t = square(x)` build the first two variables and the first function |
| Demo.BuildSquaresOfT | steps/step19.py:166 | the two squares of `t` are built next |
| Demo.BuildDiamond | steps/step19.py:164-167 | the example's statements build exactly the diamond, with `y` named `'y'` |
| Demo.BackwardOnDiamond | steps/step19.py:69-102 | running the backward method on the built diamond returns normally, in the expected final state |
| Demo.Example | steps/step19.py:164-170 | `x`, `t` and `y` hold 2, 4 and 32 with names `'x'` and `'y'`; a following `y.backward()` returns normally with `x.grad == 64` and no gradient left on `t` or `y` |

## Left out

- NumPy arrays, shapes, dtypes and floats are left out. Values are integers, and the accessors `shape`, `ndim`, `size`, `dtype`, `array`, `__len__` and `__repr__` (lines 35-60) are not modelled. They only read `data`.
- The first two statements of the example (lines 161-162) are left out. They build a 2×3 array and print its shape.
- Printing is left out, and so is I/O of any kind.
- `Config` is modelled with its one attribute, `enable_backprop`.
- Configuration.UsingConfig: every name other than `enable_backprop` is treated as missing and raises `AttributeError` before the block runs. In Python, names every instance inherits through its class, such as `__doc__` or `__module__`, are found by `getattr`; for those the source sets the attribute, runs the block and restores it, and the model does not.
- Configuration.UsingConfig: the block is a function from the flag value to the block's outcome. A block that itself changes the flag, or nests another `with`, is not modelled. The generator machinery of `contextlib.contextmanager` is not modelled either.
- Engine.Arena.Square and Engine.Arena.Add promise well-formedness only for a new function object. Calling the same `Function` object a second time overwrites its record, and the model's `Call` covers that case, but the graph is then no longer well formed.
- `forward` always returns one value here, so the case where `forward` returns a tuple (line 110 skips its wrap) and the list return of line 121 are never taken. The wrap of line 111 runs on every call. At line 89, the one gradient `Square.backward` returns is wrapped, while the tuple `Add.backward` returns is not; `Ops.LocalBackward` gives both as a sequence. `Connect`, `LinkOutputs` and `NewOutputs` still handle any number of outputs.
- Python `weakref`s and garbage collection are not modelled. The outputs are plain indices into the heap.
- The base classes' `forward` and `backward` (lines 123-127) raise `NotImplementedError`. They are not modelled, because only `Square` and `Add` are ever called.
