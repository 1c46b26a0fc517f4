/** The fan-in shared by the engine and the command-line pipelines: one
    goroutine per work item, each bringing at most one value to a slice that a
    mutex protects. The goroutines are modelled as the turns of a sequential
    loop, taken in `order`, the order in which they reach the mutex; `res(w)`
    is what the goroutine of work item `w` brings (None when it gives up). */
module FanIn {
  import opened Base

  /** Every turn of `order` is one of `n` work items. */
  predicate InRange(order: seq<nat>, n: nat)
  {
    forall t :: 0 <= t < |order| ==> order[t] < n
  }

  /** `order` takes each of the `n` work items exactly once. */
  predicate IsOrder(order: seq<nat>, n: nat)
  {
    |order| == n && InRange(order, n) &&
    (forall w :: 0 <= w < n ==> w in order) &&
    forall s, t :: 0 <= s < t < |order| ==> order[s] != order[t]
  }

  /** The values appended under the mutex, turn by turn. */
  function Collected<T>(res: nat -> Option<T>, order: seq<nat>): (cs: seq<T>)
    ensures |cs| <= |order|
  {
    if order == [] then []
    else Collected(res, order[..|order| - 1]) + Kept(res(order[|order| - 1]))
  }

  /** One more turn appends its value, if it brings one. */
  lemma CollectedUnfold<T>(res: nat -> Option<T>, order: seq<nat>, t: nat)
    requires t < |order|
    ensures var x := res(order[t]); var pre := Collected(res, order[..t]);
      Collected(res, order[..t + 1]) == (if x.Some? then pre + [x.value] else pre)
  {
    assert order[..t + 1][..t] == order[..t];
    assert Collected(res, order[..t]) + [] == Collected(res, order[..t]);
  }

  /** The values of two stretches of turns, one after the other. */
  lemma {:induction false} CollectedAppend<T>(res: nat -> Option<T>, u: seq<nat>, v: seq<nat>)
    ensures Collected(res, u + v) == Collected(res, u) + Collected(res, v)
    decreases |v|
  {
    if v == [] {
      assert u + v == u;
    } else {
      var v' := v[..|v| - 1];
      assert (u + v)[..|u + v| - 1] == u + v';
      assert (u + v)[|u + v| - 1] == v[|v| - 1];
      CollectedAppend(res, u, v');
    }
  }

  /** The order in which the goroutines finish decides the order of the values,
      not which values there are. */
  lemma {:induction false} CollectedPermutation<T>(res: nat -> Option<T>, a: seq<nat>, b: seq<nat>)
    requires multiset(a) == multiset(b)
    ensures multiset(Collected(res, a)) == multiset(Collected(res, b))
    decreases |a|
  {
    if a == [] {
      assert |b| == |multiset(b)| == 0;
    } else {
      var x, a' := a[|a| - 1], a[..|a| - 1];
      assert a == a' + [x];
      var b1, b2 := RemoveOne(a', x, b);
      CollectedPermutation(res, a', b1 + b2);
      CollectedSplit(res, b1, x, b2);
      var k := Kept(res(x));
      calc {
        multiset(Collected(res, a));
        multiset(Collected(res, a') + k);
        multiset(Collected(res, a')) + multiset(k);
        multiset(Collected(res, b1)) + multiset(Collected(res, b2)) + multiset(k);
        multiset(Collected(res, b1) + k + Collected(res, b2));
        multiset(Collected(res, b));
      }
    }
  }

  /** `b` holds `x` where `a + [x]` does, the rest being a permutation of `a`. */
  lemma RemoveOne<T>(a: seq<T>, x: T, b: seq<T>) returns (b1: seq<T>, b2: seq<T>)
    requires multiset(a + [x]) == multiset(b)
    ensures b == b1 + [x] + b2 && multiset(a) == multiset(b1 + b2)
  {
    var k := FindIn(a, x, b);
    b1, b2 := b[..k], b[k + 1..];
    assert b == b1 + [x] + b2;
    Cancel(multiset(a), multiset(b1 + b2), x);
  }

  lemma FindIn<T>(a: seq<T>, x: T, b: seq<T>) returns (k: nat)
    requires multiset(a + [x]) == multiset(b)
    ensures k < |b| && b[k] == x
  {
    assert (a + [x])[|a|] == x;
    assert x in multiset(b);
    k :| 0 <= k < |b| && b[k] == x;
  }

  lemma Cancel<T>(m: multiset<T>, n: multiset<T>, x: T)
    requires m + multiset{x} == n + multiset{x}
    ensures m == n
  {
    assert m == m + multiset{x} - multiset{x};
    assert n == n + multiset{x} - multiset{x};
  }

  lemma CollectedSplit<T>(res: nat -> Option<T>, b1: seq<nat>, x: nat, b2: seq<nat>)
    ensures Collected(res, b1 + [x] + b2) == Collected(res, b1) + Kept(res(x)) + Collected(res, b2)
    ensures Collected(res, b1 + b2) == Collected(res, b1) + Collected(res, b2)
  {
    CollectedAppend(res, b1 + [x], b2);
    CollectedAppend(res, b1, [x]);
    CollectedAppend(res, b1, b2);
    assert [x][..0] == [];
  }

  /** Nothing is collected exactly when every goroutine gives up. */
  lemma {:induction false} CollectedEmpty<T>(res: nat -> Option<T>, order: seq<nat>)
    ensures Collected(res, order) == [] <==> forall t :: 0 <= t < |order| ==> res(order[t]).None?
    decreases |order|
  {
    if order != [] {
      var pre := order[..|order| - 1];
      CollectedEmpty(res, pre);
      assert forall t :: 0 <= t < |pre| ==> pre[t] == order[t];
    }
  }

  /** A value is collected exactly when some turn brings it. */
  lemma {:induction false} CollectedFrom<T>(res: nat -> Option<T>, order: seq<nat>, x: T)
    ensures x in Collected(res, order) <==> exists t :: 0 <= t < |order| && res(order[t]) == Some(x)
    decreases |order|
  {
    if order != [] {
      var pre, w := order[..|order| - 1], order[|order| - 1];
      CollectedFrom(res, pre, x);
      assert forall t :: 0 <= t < |pre| ==> pre[t] == order[t];
      if exists t :: 0 <= t < |order| && res(order[t]) == Some(x) {
        var t :| 0 <= t < |order| && res(order[t]) == Some(x);
        if t == |order| - 1 {
          assert Kept(res(w)) == [x];
        } else {
          assert res(pre[t]) == Some(x);
        }
      }
    }
  }

  /** Whatever the order, the value of every work item that does not give up is
      collected: an item that gives up drops only its own value. */
  lemma EveryValueCollected<T>(res: nat -> Option<T>, order: seq<nat>, n: nat, w: nat)
    requires IsOrder(order, n) && w < n && res(w).Some?
    ensures res(w).value in Collected(res, order)
  {
    CollectedFrom(res, order, res(w).value);
    assert w in order;
    var t :| 0 <= t < |order| && order[t] == w;
    assert res(order[t]) == Some(res(w).value);
  }
}
