/** The worklist of `Variable.backward`: the list `funcs`, kept sorted by
    priority, and `seen_set`, together with the inner helper `add_func`. */
module Worklist {
  import opened Base
  import opened Graph

  /** The list `funcs` (as function indices) and the set `seen_set`. */
  datatype Queue = Queue(items: seq<nat>, seen: set<nat>)

  const Empty := Queue([], {})

  /** Every listed function exists and has a `priority` attribute. */
  predicate Keyed(funcs: seq<Function>, items: seq<nat>)
  {
    forall i | 0 <= i < |items| :: items[i] < |funcs| && funcs[items[i]].rec.Some?
  }

  /** The sort key `lambda x: x.priority`. */
  function Priority(funcs: seq<Function>, f: nat): (p: nat)
    requires f < |funcs| && funcs[f].rec.Some?
    ensures p == funcs[f].rec.value.priority
  {
    funcs[f].rec.value.priority
  }

  /** Ascending by priority. */
  predicate Sorted(funcs: seq<Function>, items: seq<nat>)
    requires Keyed(funcs, items)
  {
    forall i, j | 0 <= i < j < |items| :: Priority(funcs, items[i]) <= Priority(funcs, items[j])
  }

  /** What `add_func` maintains: the list is sorted, has no duplicates and
      holds only seen functions, all of which exist. */
  predicate QueueInv(funcs: seq<Function>, q: Queue)
  {
    Keyed(funcs, q.items)
    && Sorted(funcs, q.items)
    && Distinct(q.items)
    && (forall i | 0 <= i < |q.items| :: q.items[i] in q.seen)
    && (forall f | f in q.seen :: f < |funcs|)
  }

  /** Where a stable sort moves an element of priority `Priority(funcs, f)`
      appended to a sorted list: after every element whose priority is at
      most its own, before every element whose priority is larger. */
  function InsertionPoint(funcs: seq<Function>, items: seq<nat>, f: nat): (k: nat)
    requires Keyed(funcs, items) && Sorted(funcs, items)
    requires f < |funcs| && funcs[f].rec.Some?
    ensures k <= |items|
    ensures forall i | 0 <= i < k :: Priority(funcs, items[i]) <= Priority(funcs, f)
    ensures forall i | k <= i < |items| :: Priority(funcs, f) < Priority(funcs, items[i])
  {
    if items == [] then 0
    else if Priority(funcs, items[|items| - 1]) <= Priority(funcs, f) then |items|
    else InsertionPoint(funcs, items[..|items| - 1], f)
  }

  /** The insertion point is the only split of a sorted list into a part
      at most `f`'s priority and a part above it. */
  lemma InsertionPointIs(funcs: seq<Function>, items: seq<nat>, f: nat, k: nat)
    requires Keyed(funcs, items) && Sorted(funcs, items)
    requires f < |funcs| && funcs[f].rec.Some? && k <= |items|
    requires forall i | 0 <= i < k :: Priority(funcs, items[i]) <= Priority(funcs, f)
    requires forall i | k <= i < |items| :: Priority(funcs, f) < Priority(funcs, items[i])
    ensures k == InsertionPoint(funcs, items, f)
  {
  }

  /** `add_func(f)`: an already seen function is ignored; otherwise `f` is
      appended, marked seen, and the list re-sorted by priority, which fails
      with `AttributeError` when `f` is `None` or has no `priority`. */
  function AddFunc(funcs: seq<Function>, q: Queue, f: Option<nat>): (r: Result<Queue>)
    requires QueueInv(funcs, q)
    requires f.Some? ==> f.value < |funcs|
    ensures r.Err? <==> f.None? || (f.value !in q.seen && funcs[f.value].rec.None?)
    ensures r.Err? ==> r.error == AttributeError
    ensures f.Some? && f.value in q.seen ==> r == Ok(q)
    ensures r.Ok? ==> QueueInv(funcs, r.value)
    ensures r.Ok? ==> r.value.seen == q.seen + {f.value}
    ensures r.Ok? ==> forall g | g in r.value.items :: g in q.items || g == f.value
    ensures r.Ok? && f.value !in q.seen ==>
      var k := InsertionPoint(funcs, q.items, f.value);
      r.value.items == q.items[..k] + [f.value] + q.items[k..]
    ensures r.Ok? ==> forall g | g in q.items :: g in r.value.items
    ensures r.Ok? && f.value !in q.seen ==> f.value in r.value.items
  {
    if f.None? then Err(AttributeError)
    else if f.value in q.seen then Ok(q)
    else if funcs[f.value].rec.None? then Err(AttributeError)
    else
      var k := InsertionPoint(funcs, q.items, f.value);
      var items := q.items[..k] + [f.value] + q.items[k..];
      InsertKeepsInv(funcs, q, f.value, k);
      SpliceKeeps(q.items, k, f.value);
      Ok(Queue(items, q.seen + {f.value}))
  }

  lemma InsertKeepsInv(funcs: seq<Function>, q: Queue, f: nat, k: nat)
    requires QueueInv(funcs, q)
    requires f < |funcs| && funcs[f].rec.Some? && f !in q.seen
    requires k == InsertionPoint(funcs, q.items, f)
    ensures QueueInv(funcs, Queue(q.items[..k] + [f] + q.items[k..], q.seen + {f}))
    ensures forall g | g in q.items[..k] + [f] + q.items[k..] :: g in q.items || g == f
  {
    var items := q.items[..k] + [f] + q.items[k..];
    forall i | 0 <= i < |items|
      ensures items[i] == Spliced(q.items, k, f, i)
    {
      SplicedAt(q.items, k, f, i);
    }
    InsertSorted(funcs, q, f, k, items);
  }

  /** Each pair of the spliced list is ordered and distinct. */
  lemma InsertSorted(funcs: seq<Function>, q: Queue, f: nat, k: nat, items: seq<nat>)
    requires QueueInv(funcs, q)
    requires f < |funcs| && funcs[f].rec.Some? && f !in q.seen
    requires k == InsertionPoint(funcs, q.items, f)
    requires |items| == |q.items| + 1
    requires forall i | 0 <= i < |items| :: items[i] == Spliced(q.items, k, f, i)
    ensures Keyed(funcs, items)
    ensures forall i, j | 0 <= i < j < |items| :: Priority(funcs, items[i]) <= Priority(funcs, items[j]) && items[i] != items[j]
  {
    forall i, j | 0 <= i < j < |items|
      ensures Priority(funcs, items[i]) <= Priority(funcs, items[j]) && items[i] != items[j]
    {
      assert items[i] == Spliced(q.items, k, f, i) && items[j] == Spliced(q.items, k, f, j);
      if j < k {
        assert items[i] == q.items[i] && items[j] == q.items[j];
      } else if j == k {
        assert items[i] == q.items[i] && items[j] == f && q.items[i] in q.seen;
      } else if i < k {
        assert items[i] == q.items[i] && items[j] == q.items[j - 1];
      } else if i == k {
        assert items[i] == f && items[j] == q.items[j - 1];
      } else {
        assert items[i] == q.items[i - 1] && items[j] == q.items[j - 1];
      }
    }
  }

  /** Splicing `f` in drops no element. */
  lemma SpliceKeeps(items: seq<nat>, k: nat, f: nat)
    requires k <= |items|
    ensures forall g | g in items :: g in items[..k] + [f] + items[k..]
    ensures f in items[..k] + [f] + items[k..]
  {
    var spliced := items[..k] + [f] + items[k..];
    forall g | g in items ensures g in spliced {
      var i :| 0 <= i < |items| && items[i] == g;
      if i < k {
        assert spliced[i] == g;
      } else {
        assert spliced[i + 1] == g;
      }
    }
    assert spliced[k] == f;
  }

  lemma SplicedAt(items: seq<nat>, k: nat, f: nat, i: nat)
    requires k <= |items| && i <= |items|
    ensures (items[..k] + [f] + items[k..])[i] == Spliced(items, k, f, i)
  {
  }

  /** Element `i` of `items[..k] + [f] + items[k..]`. */
  function Spliced(items: seq<nat>, k: nat, f: nat, i: nat): nat
    requires k <= |items| && i <= |items|
  {
    if i < k then items[i] else if i == k then f else items[i - 1]
  }

  /** Removing the last element keeps the invariant, and the removed
      function is seen but no longer listed. */
  lemma PopKeepsInv(funcs: seq<Function>, q: Queue)
    requires QueueInv(funcs, q) && q.items != []
    ensures QueueInv(funcs, q.(items := q.items[..|q.items| - 1]))
    ensures q.items[|q.items| - 1] in q.seen
    ensures q.items[|q.items| - 1] !in q.items[..|q.items| - 1]
  {
  }

  /** `funcs.pop()` removes the last element, and in a sorted list that
      element has the largest priority. */
  lemma {:induction false} PopTakesMax(funcs: seq<Function>, q: Queue)
    requires QueueInv(funcs, q) && q.items != []
    ensures forall g | g in q.items :: Priority(funcs, g) <= Priority(funcs, q.items[|q.items| - 1])
  {
    forall g | g in q.items
      ensures Priority(funcs, g) <= Priority(funcs, q.items[|q.items| - 1])
    {
      var i :| 0 <= i < |q.items| && q.items[i] == g;
      if i < |q.items| - 1 {
        assert Priority(funcs, q.items[i]) <= Priority(funcs, q.items[|q.items| - 1]);
      }
    }
  }
}
