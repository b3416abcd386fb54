/** Python's `for x in lst:` loop whose body may call `lst.remove(x)`.

    The list iterator is an index into the live list. Removing the element
    under the iterator shifts the rest one place left, so the element that
    followed it is never visited in that pass. The scripts' lists never hold
    the same object twice, so `remove(x)` removes the element under the
    iterator. */
module ListIteration {

  /** What a pass leaves behind: the body's final state and the list. */
  datatype Pass<S, T> = Pass(state: S, list: seq<T>)

  /** The pass as the interpreter runs it, from iterator position i. `step`
      gives the body's new state and whether the body removed the element. */
  function Iterate<S, T>(list: seq<T>, i: nat, s: S, step: (S, T) -> (S, bool)): Pass<S, T>
    decreases |list| + 1 - i
  {
    if i >= |list| then Pass(s, list)
    else
      var next := step(s, list[i]);
      if next.1 then Iterate(list[..i] + list[i + 1..], i + 1, next.0, step)
      else Iterate(list, i + 1, next.0, step)
  }

  /** The same pass described on the original list: the body runs on each
      element except one that directly follows an element it removed. */
  function Walk<S, T>(r: seq<T>, s: S, step: (S, T) -> (S, bool)): Pass<S, T>
    decreases |r|
  {
    if r == [] then Pass(s, [])
    else
      var next := step(s, r[0]);
      if !next.1 then
        var w := Walk(r[1..], next.0, step);
        Pass(w.state, [r[0]] + w.list)
      else if |r| == 1 then Pass(next.0, [])
      else
        var w := Walk(r[2..], next.0, step);
        Pass(w.state, [r[1]] + w.list)
  }

  lemma {:induction false} IterateWalks<S, T>(done: seq<T>, r: seq<T>, s: S, step: (S, T) -> (S, bool))
    ensures Iterate(done + r, |done|, s, step)
         == Pass(Walk(r, s, step).state, done + Walk(r, s, step).list)
    decreases |r|, 1
  {
    var l := done + r;
    if r == [] {
      assert l == done + [];
    } else if !step(s, r[0]).1 {
      KeptStep(done, r, s, step);
    } else if |r| == 1 {
      assert l[|done|] == r[0];
      assert l[..|done|] + l[|done| + 1..] == done;
    } else {
      RemovedStep(done, r, s, step);
    }
  }

  /** The body keeps the element under the iterator: the pass moves on to
      the next one. */
  lemma {:induction false} KeptStep<S, T>(done: seq<T>, r: seq<T>, s: S, step: (S, T) -> (S, bool))
    requires r != [] && !step(s, r[0]).1
    ensures Iterate(done + r, |done|, s, step)
         == Pass(Walk(r, s, step).state, done + Walk(r, s, step).list)
    decreases |r|, 0
  {
    var l := done + r;
    var next := step(s, r[0]);
    assert l[|done|] == r[0];
    var d := done + [r[0]];
    assert l == d + r[1..];
    IterateWalks(d, r[1..], next.0, step);
    var w := Walk(r[1..], next.0, step);
    assert Iterate(l, |done|, s, step) == Iterate(l, |d|, next.0, step);
    assert d + w.list == done + ([r[0]] + w.list);
  }

  /** The body removes the element under the iterator: the next element
      slides under the iterator, which then moves past it. */
  lemma {:induction false} RemovedStep<S, T>(done: seq<T>, r: seq<T>, s: S, step: (S, T) -> (S, bool))
    requires |r| >= 2 && step(s, r[0]).1
    ensures Iterate(done + r, |done|, s, step)
         == Pass(Walk(r, s, step).state, done + Walk(r, s, step).list)
    decreases |r|, 0
  {
    var l := done + r;
    var next := step(s, r[0]);
    assert l[|done|] == r[0];
    var d := done + [r[1]];
    var l' := l[..|done|] + l[|done| + 1..];
    assert l' == d + r[2..];
    IterateWalks(d, r[2..], next.0, step);
    var w := Walk(r[2..], next.0, step);
    assert Iterate(l, |done|, s, step) == Iterate(l', |d|, next.0, step);
    assert d + w.list == done + ([r[1]] + w.list);
  }

  /** The interpreter's pass is the walk over the original list. */
  lemma IterateIsWalk<S, T>(list: seq<T>, s: S, step: (S, T) -> (S, bool))
    ensures Iterate(list, 0, s, step) == Walk(list, s, step)
  {
    IterateWalks([], list, s, step);
    assert [] + list == list;
  }

  /** When the body removes the first element, the second stays in the list
      without the body ever seeing it, and the pass resumes at the third. */
  lemma RemovalSkipsNext<S, T>(list: seq<T>, s: S, step: (S, T) -> (S, bool))
    requires |list| >= 2 && step(s, list[0]).1
    ensures Iterate(list, 0, s, step)
         == Pass(Walk(list[2..], step(s, list[0]).0, step).state,
                 [list[1]] + Walk(list[2..], step(s, list[0]).0, step).list)
  {
    IterateIsWalk(list, s, step);
  }

  /** A pass only ever drops elements: what is left is a sub-multiset of the list. */
  lemma {:induction false} WalkShrinks<S, T>(r: seq<T>, s: S, step: (S, T) -> (S, bool))
    ensures multiset(Walk(r, s, step).list) <= multiset(r)
    decreases |r|
  {
    if r != [] {
      var next := step(s, r[0]);
      assert r == [r[0]] + r[1..];
      if !next.1 {
        WalkShrinks(r[1..], next.0, step);
      } else if |r| > 1 {
        assert r[1..] == [r[1]] + r[2..];
        WalkShrinks(r[2..], next.0, step);
      }
    }
  }

  /** A property of the body's state that every step keeps holds after the
      whole pass. */
  lemma {:induction false} IteratePreserves<S, T>(list: seq<T>, i: nat, s: S, step: (S, T) -> (S, bool), inv: S -> bool)
    requires inv(s)
    requires forall s', x :: inv(s') ==> inv(step(s', x).0)
    ensures inv(Iterate(list, i, s, step).state)
    decreases |list| + 1 - i
  {
    if i < |list| {
      var next := step(s, list[i]);
      if next.1 {
        IteratePreserves(list[..i] + list[i + 1..], i + 1, next.0, step, inv);
      } else {
        IteratePreserves(list, i + 1, next.0, step, inv);
      }
    }
  }

  /** An element that the body never removes, whatever the state, survives the pass. */
  lemma {:induction false} WalkKeeps<S, T>(r: seq<T>, s: S, step: (S, T) -> (S, bool), x: T)
    requires x in r
    requires forall s' :: !step(s', x).1
    ensures x in Walk(r, s, step).list
    decreases |r|
  {
    var next := step(s, r[0]);
    if x != r[0] {
      assert x in r[1..];
      if !next.1 {
        WalkKeeps(r[1..], next.0, step, x);
      } else if x != r[1] {
        assert x in r[2..];
        WalkKeeps(r[2..], next.0, step, x);
      }
    }
  }
}
