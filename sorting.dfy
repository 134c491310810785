// `instances.sort(key=lambda x: x['lifetime_left'], reverse=True)`: Python's
// sort is stable, also with reverse=True, so it orders the records by
// non-increasing lifetime_left and keeps the input order among equal keys.
// Modelled as an insertion sort on values; its three properties (ordered,
// a permutation, stable) are the lemmas below.

module Sorting {
  import opened Common
  import opened Base

  /** The sort key. Every sorted record carries lifetime_left. */
  function Key(x: Instance): real {
    if x.lifetimeLeft.Some? then x.lifetimeLeft.value else 0.0
  }

  predicate SortedDesc(s: seq<Instance>) {
    forall i, j :: 0 <= i < j < |s| ==> Key(s[i]) >= Key(s[j])
  }

  /** Places x after every element whose key is at least x's. */
  function Insert(t: seq<Instance>, x: Instance): seq<Instance>
    decreases |t|
  {
    if t == [] then [x]
    else if Key(t[0]) >= Key(x) then [t[0]] + Insert(t[1..], x)
    else [x] + t
  }

  function SortDesc(s: seq<Instance>): seq<Instance>
    decreases |s|
  {
    if s == [] then [] else Insert(SortDesc(s[..|s| - 1]), s[|s| - 1])
  }

  /** The records of s whose key is v, in order. */
  function WithKey(s: seq<Instance>, v: real): seq<Instance>
    decreases |s|
  {
    if s == [] then []
    else (if Key(s[0]) == v then [s[0]] else []) + WithKey(s[1..], v)
  }

  lemma {:induction false} WithKeyAppend(a: seq<Instance>, b: seq<Instance>, v: real)
    ensures WithKey(a + b, v) == WithKey(a, v) + WithKey(b, v)
    decreases |a|
  {
    if a == [] {
      assert a + b == b;
    } else {
      var ab := a + b;
      assert ab[0] == a[0] && ab[1..] == a[1..] + b;
      WithKeyAppend(a[1..], b, v);
      var head := if Key(a[0]) == v then [a[0]] else [];
      assert WithKey(ab, v) == head + WithKey(a[1..] + b, v);
      assert WithKey(a, v) == head + WithKey(a[1..], v);
    }
  }

  lemma {:induction false} InsertPermutes(t: seq<Instance>, x: Instance)
    ensures multiset(Insert(t, x)) == multiset(t) + multiset([x])
    ensures |Insert(t, x)| == |t| + 1
    decreases |t|
  {
    if t != [] {
      if Key(t[0]) >= Key(x) {
        InsertPermutes(t[1..], x);
        assert t == [t[0]] + t[1..];
      }
    }
  }

  /** Every element of the insertion result is x or comes from t. */
  lemma {:induction false} InsertElements(t: seq<Instance>, x: Instance)
    ensures forall y :: y in Insert(t, x) ==> y == x || y in t
  {
    InsertPermutes(t, x);
    forall y | y in Insert(t, x) ensures y == x || y in t {
      assert y in multiset(Insert(t, x));
    }
  }

  lemma SortedTail(t: seq<Instance>)
    requires SortedDesc(t) && t != []
    ensures SortedDesc(t[1..])
  {
    var tail := t[1..];
    forall i, j | 0 <= i < j < |tail| ensures Key(tail[i]) >= Key(tail[j]) {
      assert tail[i] == t[i + 1] && tail[j] == t[j + 1];
    }
  }

  lemma SortedCons(h: Instance, r: seq<Instance>)
    requires SortedDesc(r) && forall y :: y in r ==> Key(h) >= Key(y)
    ensures SortedDesc([h] + r)
  {
    var out := [h] + r;
    forall i, j | 0 <= i < j < |out| ensures Key(out[i]) >= Key(out[j]) {
      assert out[j] == r[j - 1] && r[j - 1] in r;
      if i > 0 {
        assert out[i] == r[i - 1];
      }
    }
  }

  lemma {:induction false} InsertSorted(t: seq<Instance>, x: Instance)
    requires SortedDesc(t)
    ensures SortedDesc(Insert(t, x))
    decreases |t|
  {
    if t != [] && Key(t[0]) >= Key(x) {
      var tail := t[1..];
      SortedTail(t);
      InsertSorted(tail, x);
      InsertElements(tail, x);
      forall y | y in Insert(tail, x) ensures Key(t[0]) >= Key(y) {
        if y != x {
          var j :| 0 <= j < |tail| && tail[j] == y;
          assert t[j + 1] == y;
        }
      }
      SortedCons(t[0], Insert(tail, x));
    } else if t != [] {
      forall y | y in t ensures Key(x) >= Key(y) {
        var j :| 0 <= j < |t| && t[j] == y;
        assert j == 0 || Key(t[0]) >= Key(t[j]);
      }
      SortedCons(x, t);
    }
  }

  /** In a sorted sequence whose first key is below v, no key equals v. */
  lemma NoKeyAbove(t: seq<Instance>, v: real)
    requires SortedDesc(t) && t != [] && Key(t[0]) < v
    ensures WithKey(t, v) == []
  {
    var k := 0;
    while k < |t|
      invariant 0 <= k <= |t|
      invariant WithKey(t[k..], v) == WithKey(t, v)
    {
      assert t[k..][0] == t[k] && t[k..][1..] == t[k + 1..];
      assert k == 0 || Key(t[0]) >= Key(t[k]);
      k := k + 1;
    }
    assert t[|t|..] == [];
  }

  /** Inserting x into a sorted sequence puts it after every element of
      equal key. */
  lemma {:induction false} InsertStable(t: seq<Instance>, x: Instance, v: real)
    requires SortedDesc(t)
    ensures WithKey(Insert(t, x), v) == WithKey(t, v) + (if Key(x) == v then [x] else [])
    decreases |t|
  {
    if t == [] {
    } else if Key(t[0]) >= Key(x) {
      var tail := t[1..];
      SortedTail(t);
      InsertStable(tail, x, v);
      assert ([t[0]] + Insert(tail, x))[1..] == Insert(tail, x);
    } else {
      assert ([x] + t)[1..] == t;
      if Key(x) == v {
        NoKeyAbove(t, v);
      }
    }
  }

  /** The sort orders by non-increasing key, permutes its input, and keeps
      the input order among the records of each key. */
  lemma {:induction false} SortDescSpec(s: seq<Instance>)
    ensures SortedDesc(SortDesc(s))
    ensures multiset(SortDesc(s)) == multiset(s)
    ensures |SortDesc(s)| == |s|
    ensures forall v :: WithKey(SortDesc(s), v) == WithKey(s, v)
    decreases |s|
  {
    if s != [] {
      var front, last := s[..|s| - 1], s[|s| - 1];
      assert s == front + [last];
      SortDescSpec(front);
      InsertSorted(SortDesc(front), last);
      InsertPermutes(SortDesc(front), last);
      forall v ensures WithKey(SortDesc(s), v) == WithKey(s, v) {
        InsertStable(SortDesc(front), last, v);
        WithKeyAppend(front, [last], v);
      }
    }
  }
}
