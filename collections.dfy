/** The array operations the screens apply to their state: `filter`, `map` that rewrites the records
    matching a condition, and `find`. Each is defined once, generically, and the screens pass the
    condition (for example "has this id") as a function value. */
module Collections {
  import opened Common

  /** `xs.filter(p)`: the elements of `xs` that satisfy `p`. */
  function Keep<T>(xs: seq<T>, p: T -> bool): (r: seq<T>)
    ensures |r| <= |xs|
    ensures forall i :: 0 <= i < |r| ==> r[i] in xs && p(r[i])
    ensures forall i :: 0 <= i < |xs| && p(xs[i]) ==> xs[i] in r
  {
    if xs == [] then []
    else
      var init := xs[..|xs| - 1];
      assert xs == init + [xs[|xs| - 1]];
      Keep(init, p) + (if p(xs[|xs| - 1]) then [xs[|xs| - 1]] else [])
  }

  /** The indices of the elements of `xs` that satisfy `p`, ascending. */
  function Positions<T>(xs: seq<T>, p: T -> bool): (ix: seq<nat>)
    ensures |ix| == |Keep(xs, p)|
    ensures forall k :: 0 <= k < |ix| ==> ix[k] < |xs| && Keep(xs, p)[k] == xs[ix[k]]
    ensures forall k, l :: 0 <= k < l < |ix| ==> ix[k] < ix[l]
  {
    if xs == [] then []
    else
      var init, last := xs[..|xs| - 1], |xs| - 1;
      var pi := Positions(init, p);
      assert Keep(xs, p) == Keep(init, p) + (if p(xs[last]) then [xs[last]] else []);
      assert forall i :: 0 <= i < |init| ==> init[i] == xs[i];
      assert forall k :: 0 <= k < |pi| ==> pi[k] < last;
      pi + (if p(xs[last]) then [last] else [])
  }

  /** Every index of an element satisfying `p` is among the positions: nothing is dropped. */
  lemma {:induction false} PositionsComplete<T>(xs: seq<T>, p: T -> bool)
    ensures forall i :: 0 <= i < |xs| && p(xs[i]) ==> i in Positions(xs, p)
  {
    if xs != [] {
      var init := xs[..|xs| - 1];
      PositionsComplete(init, p);
      assert forall i :: 0 <= i < |init| ==> init[i] == xs[i];
    }
  }

  /** A filter keeps one element for every element of its input that satisfies the condition. */
  lemma {:induction false} KeepCount<T>(xs: seq<T>, p: T -> bool)
    ensures |Keep(xs, p)| == Count(xs, p)
  {
    if xs != [] {
      KeepCount(xs[..|xs| - 1], p);
    }
  }

  /** The number of elements of `xs` that satisfy `p`. */
  function Count<T>(xs: seq<T>, p: T -> bool): (n: nat)
    ensures n <= |xs|
  {
    if xs == [] then 0
    else Count(xs[..|xs| - 1], p) + (if p(xs[|xs| - 1]) then 1 else 0)
  }

  /** `xs.map(x => p(x) ? f(x) : x)`: every element satisfying `p` is rewritten by `f`. */
  function Update<T>(xs: seq<T>, p: T -> bool, f: T -> T): (r: seq<T>)
    ensures |r| == |xs|
    ensures forall i :: 0 <= i < |xs| ==> r[i] == if p(xs[i]) then f(xs[i]) else xs[i]
  {
    if xs == [] then []
    else
      var last := xs[|xs| - 1];
      Update(xs[..|xs| - 1], p, f) + [if p(last) then f(last) else last]
  }

  /** `xs.map(f)`: every element rewritten by `f`. */
  function Map<T, U>(xs: seq<T>, f: T -> U): (r: seq<U>)
    ensures |r| == |xs| && forall i :: 0 <= i < |xs| ==> r[i] == f(xs[i])
  {
    seq(|xs|, i requires 0 <= i < |xs| => f(xs[i]))
  }

  /** Mapping a list maps its head and then its tail. */
  lemma MapCons<T, U>(x: T, ys: seq<T>, f: T -> U)
    ensures Map([x] + ys, f) == [f(x)] + Map(ys, f)
  {
    var l, r := Map([x] + ys, f), [f(x)] + Map(ys, f);
    forall i | 0 <= i < |l| ensures l[i] == r[i] {
      if i > 0 {
        assert ([x] + ys)[i] == ys[i - 1];
      }
    }
  }

  /** `xs.find(p)`: the first element satisfying `p`, or `None` (`undefined`). */
  function Find<T>(xs: seq<T>, p: T -> bool): (r: Option<T>)
    ensures r.None? <==> forall i :: 0 <= i < |xs| ==> !p(xs[i])
    ensures r.Some? ==> exists i :: FirstAt(xs, p, i) && xs[i] == r.value
  {
    if xs == [] then None
    else if p(xs[0]) then
      assert FirstAt(xs, p, 0);
      Some(xs[0])
    else
      FirstAtShift(xs, p);
      Find(xs[1..], p)
  }

  /** Past a first element that fails `p`, the first match moves one place to the right. */
  lemma FirstAtShift<T>(xs: seq<T>, p: T -> bool)
    requires xs != [] && !p(xs[0])
    ensures forall i :: FirstAt(xs[1..], p, i) ==> FirstAt(xs, p, i + 1) && xs[i + 1] == xs[1..][i]
  {
  }

  /** `find` returns the element at the first matching position. */
  lemma {:induction false} FindIsFirst<T>(xs: seq<T>, p: T -> bool)
    ensures forall j :: FirstAt(xs, p, j) ==> Find(xs, p) == Some(xs[j])
  {
    if xs != [] && !p(xs[0]) {
      FindIsFirst(xs[1..], p);
      forall j | FirstAt(xs, p, j) ensures Find(xs, p) == Some(xs[j]) {
        assert FirstAt(xs[1..], p, j - 1);
      }
    }
  }

  /** When exactly one element satisfies `p`, `find` returns it. */
  lemma FindUnique<T>(xs: seq<T>, p: T -> bool, i: int)
    requires 0 <= i < |xs| && p(xs[i])
    requires forall j :: 0 <= j < |xs| && p(xs[j]) ==> j == i
    ensures Find(xs, p) == Some(xs[i])
  {
    assert FirstAt(xs, p, i);
    FindIsFirst(xs, p);
  }

  /** `xs[i]` is the first element of `xs` that satisfies `p`. */
  predicate FirstAt<T>(xs: seq<T>, p: T -> bool, i: int) {
    0 <= i < |xs| && p(xs[i]) && forall j :: 0 <= j < i ==> !p(xs[j])
  }

  /** No two elements of `xs` have the same key. */
  ghost predicate Distinct<T, K>(xs: seq<T>, key: T -> K) {
    forall i, j :: 0 <= i < j < |xs| ==> key(xs[i]) != key(xs[j])
  }

  /** `ix` lists, in ascending order, the position in `xs` of each element of `r`. */
  ghost predicate EmbeddedAt<T>(r: seq<T>, xs: seq<T>, ix: seq<nat>) {
    && |ix| == |r|
    && (forall k :: 0 <= k < |ix| ==> ix[k] < |xs| && r[k] == xs[ix[k]])
    && (forall k, l :: 0 <= k < l < |ix| ==> ix[k] < ix[l])
  }

  /** `r` is `xs` with some elements left out and the others in their original order. */
  ghost predicate Subsequence<T>(r: seq<T>, xs: seq<T>) {
    exists ix :: EmbeddedAt(r, xs, ix)
  }

  /** Filtering a concatenation filters each part. */
  lemma {:induction false} KeepConcat<T>(a: seq<T>, b: seq<T>, p: T -> bool)
    ensures Keep(a + b, p) == Keep(a, p) + Keep(b, p)
    decreases |b|
  {
    if b == [] {
      assert a + b == a;
    } else {
      var init := b[..|b| - 1];
      KeepConcat(a, init, p);
      assert (a + b)[..|a + b| - 1] == a + init;
    }
  }

  /** Filtering keeps the surviving elements in their original order. */
  lemma KeepInOrder<T>(xs: seq<T>, p: T -> bool)
    ensures Subsequence(Keep(xs, p), xs)
  {
    assert EmbeddedAt(Keep(xs, p), xs, Positions(xs, p));
  }

  /** A rewrite that keeps every key keeps the keys distinct. */
  lemma UpdateDistinct<T, K>(xs: seq<T>, p: T -> bool, f: T -> T, key: T -> K)
    requires Distinct(xs, key)
    requires forall x :: key(f(x)) == key(x)
    ensures Distinct(Update(xs, p, f), key)
  {
  }

  /** The number of removed elements is the number that fail the condition. */
  lemma {:induction false} KeepLength<T>(xs: seq<T>, p: T -> bool, q: T -> bool)
    requires forall x :: q(x) == !p(x)
    ensures |Keep(xs, p)| == |xs| - Count(xs, q)
  {
    if xs != [] {
      KeepLength(xs[..|xs| - 1], p, q);
    }
  }

  /** Filtering with a condition that every element meets returns the sequence unchanged. */
  lemma {:induction false} KeepAll<T>(xs: seq<T>, p: T -> bool)
    requires forall i :: 0 <= i < |xs| ==> p(xs[i])
    ensures Keep(xs, p) == xs
  {
    if xs != [] {
      var init := xs[..|xs| - 1];
      KeepAll(init, p);
      assert xs == init + [xs[|xs| - 1]];
    }
  }

  /** Filtering with a condition that no element meets gives the empty sequence. */
  lemma KeepNone<T>(xs: seq<T>, p: T -> bool)
    requires forall i :: 0 <= i < |xs| ==> !p(xs[i])
    ensures Keep(xs, p) == []
  {
  }

  /** Filtering twice with the same condition is filtering once. */
  lemma KeepIdempotent<T>(xs: seq<T>, p: T -> bool)
    ensures Keep(Keep(xs, p), p) == Keep(xs, p)
  {
    var r := Keep(xs, p);
    KeepAll(r, p);
  }

  /** Two conditions that agree on the elements of `xs` select the same elements. */
  lemma {:induction false} KeepCongruent<T>(xs: seq<T>, p: T -> bool, q: T -> bool)
    requires forall i :: 0 <= i < |xs| ==> p(xs[i]) == q(xs[i])
    ensures Keep(xs, p) == Keep(xs, q)
  {
    if xs != [] {
      KeepCongruent(xs[..|xs| - 1], p, q);
    }
  }

  /** Filtering keeps keys distinct, because it keeps elements at increasing positions. */
  lemma KeepDistinct<T, K>(xs: seq<T>, p: T -> bool, key: T -> K)
    requires Distinct(xs, key)
    ensures Distinct(Keep(xs, p), key)
  {
    var ix := Positions(xs, p);
    var r := Keep(xs, p);
    forall i, j | 0 <= i < j < |r| ensures key(r[i]) != key(r[j]) {
      assert r[i] == xs[ix[i]] && r[j] == xs[ix[j]] && ix[i] < ix[j];
    }
  }

  /** Rewriting twice is rewriting once when the rewrite is idempotent and keeps its condition. */
  lemma UpdateIdempotent<T>(xs: seq<T>, p: T -> bool, f: T -> T)
    requires forall x :: p(x) ==> p(f(x)) && f(f(x)) == f(x)
    ensures Update(Update(xs, p, f), p, f) == Update(xs, p, f)
  {
  }

  /** Rewriting the elements that satisfy a condition no element meets changes nothing. */
  lemma UpdateNoMatch<T>(xs: seq<T>, p: T -> bool, f: T -> T)
    requires forall i :: 0 <= i < |xs| ==> !p(xs[i])
    ensures Update(xs, p, f) == xs
  {
  }
}
