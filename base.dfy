/** Small value types shared by the whole model: Python's `None`, the
    exceptions the engine can raise, and results that carry them. */
module Base {

  /** A Python attribute that may hold `None`. */
  datatype Option<+T> = None | Some(value: T)

  /** The Python exceptions that the engine's code paths can raise. */
  datatype Error =
    | AttributeError  // reading `priority`/`outputs` of `None` or of a function never recorded
    | TypeError       // wrong number of arguments, or arithmetic with `None`
    | IndexError      // `outputs[0]` or `self.inputs[0]` on an empty sequence

  /** A value, or the exception raised while computing it. */
  datatype Result<+T> = Ok(value: T) | Err(error: Error)

  /** How a statement (or a `with` block) ends: normally, or by raising. */
  datatype Outcome = Pass | Fail(error: Error)

  /** Every index in `xs` refers to an element of a sequence of length `n`. */
  predicate RefsIn(xs: seq<nat>, n: nat)
  {
    forall i | 0 <= i < |xs| :: xs[i] < n
  }

  /** No element occurs twice. */
  predicate Distinct(xs: seq<nat>)
  {
    forall i, j | 0 <= i < j < |xs| :: xs[i] != xs[j]
  }

  /** The indices `0 .. n-1`. */
  function Below(n: nat): (s: set<nat>)
    ensures forall i: nat :: i in s <==> i < n
  {
    if n == 0 then {} else Below(n - 1) + {n - 1}
  }

  /** Removing more elements of a universe leaves strictly fewer. */
  lemma FewerLeft(u: set<nat>, a: set<nat>, b: set<nat>)
    requires a < b <= u
    ensures |u - b| < |u - a|
  {
    var small, large := u - b, u - a;
    assert large == small + (large - small);
    assert large - small != {};
  }

  /** A duplicate-free sequence whose elements all lie in `s` has at most
      `|s|` elements. */
  lemma DistinctWithin(xs: seq<nat>, s: set<nat>)
    requires Distinct(xs) && forall i | 0 <= i < |xs| :: xs[i] in s
    ensures |xs| <= |s|
  {
    DistinctCard(xs);
    SubsetCard(set i | 0 <= i < |xs| :: xs[i], s);
  }

  /** A duplicate-free sequence listing exactly the elements of `s` has
      `|s|` elements. */
  lemma DistinctExactly(xs: seq<nat>, s: set<nat>)
    requires Distinct(xs) && (forall i | 0 <= i < |xs| :: xs[i] in s) && (forall x | x in s :: x in xs)
    ensures |xs| == |s|
  {
    DistinctCard(xs);
    assert (set i | 0 <= i < |xs| :: xs[i]) == s;
  }

  lemma {:induction false} DistinctCard(xs: seq<nat>)
    requires Distinct(xs)
    ensures |set i | 0 <= i < |xs| :: xs[i]| == |xs|
  {
    if xs != [] {
      var init := xs[..|xs| - 1];
      assert Distinct(init);
      DistinctCard(init);
      var s := set i | 0 <= i < |init| :: init[i];
      var t := set i | 0 <= i < |xs| :: xs[i];
      assert t == s + {xs[|xs| - 1]};
      assert xs[|xs| - 1] !in s;
    }
  }

  lemma SubsetCard(a: set<nat>, b: set<nat>)
    requires a <= b
    ensures |a| <= |b|
  {
    assert b == a + (b - a);
  }
}
