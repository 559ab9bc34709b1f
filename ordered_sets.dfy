/**
 * Ruby's order-preserving set union on arrays, `a | b`: the elements of `a` followed by
 * those of `b`, each kept at its first occurrence and never repeated. Event and guard
 * known-state lists are built with it.
 */
module OrderedSets {

  /** No element of `s` occurs twice. */
  predicate NoDups<T(==)>(s: seq<T>) {
    forall i, j :: 0 <= i < j < |s| ==> s[i] != s[j]
  }

  /** The position of the first occurrence of `x` in `s`. */
  function FirstIndex<T(==)>(s: seq<T>, x: T): (i: nat)
    requires x in s
    ensures i < |s| && s[i] == x && x !in s[..i]
  {
    if s[0] == x then 0 else 1 + FirstIndex(s[1..], x)
  }

  /** Every element of `r` occurs in `p`, and the elements of `r` appear in the order of
      their first occurrences in `p`. */
  predicate InFirstSeenOrder<T(==)>(r: seq<T>, p: seq<T>) {
    && (forall k :: 0 <= k < |r| ==> r[k] in p)
    && (forall i, j :: 0 <= i < j < |r| ==> FirstIndex(p, r[i]) < FirstIndex(p, r[j]))
  }

  /** Adds the elements of `s` one by one to the end of `acc`, skipping each one already
      present: when `acc` has no duplicates this is Ruby's `acc | s`. */
  function Union<T(==)>(acc: seq<T>, s: seq<T>): seq<T>
    decreases |s|
  {
    if s == [] then acc
    else if s[0] in acc then Union(acc, s[1..])
    else Union(acc + [s[0]], s[1..])
  }

  /** Ruby's `a | b`. */
  function Or<T(==)>(a: seq<T>, b: seq<T>): seq<T> {
    Union([], a + b)
  }

  lemma {:induction false} UnionKeepsPrefix<T>(acc: seq<T>, s: seq<T>)
    ensures |Union(acc, s)| >= |acc| && Union(acc, s)[..|acc|] == acc
    decreases |s|
  {
    if s != [] {
      if s[0] in acc {
        UnionKeepsPrefix(acc, s[1..]);
      } else {
        UnionKeepsPrefix(acc + [s[0]], s[1..]);
        assert (acc + [s[0]])[..|acc|] == acc;
      }
    }
  }

  lemma {:induction false} UnionElements<T>(acc: seq<T>, s: seq<T>, x: T)
    ensures x in Union(acc, s) <==> x in acc || x in s
    decreases |s|
  {
    if s != [] {
      if s[0] in acc {
        UnionElements(acc, s[1..], x);
      } else {
        UnionElements(acc + [s[0]], s[1..], x);
      }
      assert s == [s[0]] + s[1..];
    }
  }

  lemma {:induction false} UnionNoDups<T>(acc: seq<T>, s: seq<T>)
    requires NoDups(acc)
    ensures NoDups(Union(acc, s))
    decreases |s|
  {
    if s != [] {
      if s[0] in acc {
        UnionNoDups(acc, s[1..]);
      } else {
        UnionNoDups(acc + [s[0]], s[1..]);
      }
    }
  }

  /** Adding `a + b` is adding `a`, then `b`. */
  lemma {:induction false} UnionAppend<T>(acc: seq<T>, a: seq<T>, b: seq<T>)
    ensures Union(acc, a + b) == Union(Union(acc, a), b)
    decreases |a|
  {
    if a == [] {
      assert a + b == b;
    } else {
      assert (a + b)[0] == a[0] && (a + b)[1..] == a[1..] + b;
      if a[0] in acc {
        UnionAppend(acc, a[1..], b);
      } else {
        UnionAppend(acc + [a[0]], a[1..], b);
      }
    }
  }

  /** Adding a list that has no duplicates and shares nothing with `acc` appends it whole. */
  lemma {:induction false} UnionFresh<T>(acc: seq<T>, s: seq<T>)
    requires NoDups(s)
    requires forall x :: x in s ==> x !in acc
    ensures Union(acc, s) == acc + s
    decreases |s|
  {
    if s != [] {
      assert s[0] !in acc;
      forall x | x in s[1..] ensures x !in acc + [s[0]] {
        assert x in s;
        var k :| 1 <= k < |s| && s[k] == x;
      }
      UnionFresh(acc + [s[0]], s[1..]);
      assert acc + [s[0]] + s[1..] == acc + s;
    }
  }

  lemma {:induction false} FirstIndexInPrefix<T>(p: seq<T>, q: seq<T>, x: T)
    requires x in p
    ensures FirstIndex(p + q, x) == FirstIndex(p, x)
    decreases |p|
  {
    if p[0] != x {
      assert (p + q)[1..] == p[1..] + q;
      FirstIndexInPrefix(p[1..], q, x);
    }
  }

  lemma {:induction false} FirstIndexAfterPrefix<T>(p: seq<T>, q: seq<T>, x: T)
    requires x !in p && x in q
    ensures FirstIndex(p + q, x) == |p| + FirstIndex(q, x)
    decreases |p|
  {
    if p == [] {
      assert p + q == q;
    } else {
      assert (p + q)[0] == p[0] != x;
      assert (p + q)[1..] == p[1..] + q;
      FirstIndexAfterPrefix(p[1..], q, x);
    }
  }

  lemma {:induction false} FirstIndexNoDups<T>(s: seq<T>, k: nat)
    requires NoDups(s) && k < |s|
    ensures FirstIndex(s, s[k]) == k
    decreases k
  {
    if k > 0 {
      assert s[0] != s[k];
      assert s[1..][k - 1] == s[k];
      FirstIndexNoDups(s[1..], k - 1);
    }
  }

  /** The elements added by `Union` keep the order in which they first occur in `acc + s`. */
  lemma {:induction false} UnionFirstSeenOrder<T>(acc: seq<T>, s: seq<T>)
    requires NoDups(acc)
    ensures InFirstSeenOrder(Union(acc, s), acc + s)
    decreases |s|
  {
    var r := Union(acc, s);
    forall k | 0 <= k < |r| ensures r[k] in acc + s {
      UnionElements(acc, s, r[k]);
    }
    if s == [] {
      assert acc + s == acc;
      forall i, j | 0 <= i < j < |r| ensures FirstIndex(acc + s, r[i]) < FirstIndex(acc + s, r[j]) {
        FirstIndexNoDups(acc, i);
        FirstIndexNoDups(acc, j);
      }
    } else if s[0] !in acc {
      UnionFirstSeenOrder(acc + [s[0]], s[1..]);
      assert acc + [s[0]] + s[1..] == acc + s;
    } else {
      var t := s[1..];
      UnionFirstSeenOrder(acc, t);
      // FirstIndex in acc + s is FirstIndex in acc + t, shifted by one past acc.
      forall k | 0 <= k < |r|
        ensures FirstIndex(acc + s, r[k]) ==
                if FirstIndex(acc + t, r[k]) < |acc| then FirstIndex(acc + t, r[k])
                else FirstIndex(acc + t, r[k]) + 1
      {
        var x := r[k];
        UnionElements(acc, t, x);
        if x in acc {
          FirstIndexInPrefix(acc, s, x);
          FirstIndexInPrefix(acc, t, x);
          assert FirstIndex(acc, x) < |acc|;
        } else {
          assert x in t && x != s[0];
          assert s == [s[0]] + t;
          FirstIndexAfterPrefix(acc, s, x);
          FirstIndexAfterPrefix(acc, t, x);
        }
      }
    }
  }

  /** What `Or` promises: exactly the elements of `a` and `b`, none repeated, in the order of
      their first occurrence in `a + b`. */
  lemma OrSpec<T>(a: seq<T>, b: seq<T>)
    ensures NoDups(Or(a, b))
    ensures forall x :: x in Or(a, b) <==> x in a || x in b
    ensures InFirstSeenOrder(Or(a, b), a + b)
  {
    UnionNoDups([], a + b);
    forall x ensures x in Or(a, b) <==> x in a || x in b {
      UnionElements([], a + b, x);
    }
    UnionFirstSeenOrder([], a + b);
    assert [] + (a + b) == a + b;
  }

  /** For a list without duplicates, Ruby's `acc | s` is `Union(acc, s)`. */
  lemma OrIsUnion<T>(acc: seq<T>, s: seq<T>)
    requires NoDups(acc)
    ensures Or(acc, s) == Union(acc, s)
  {
    UnionAppend([], acc, s);
    UnionFresh([], acc);
    assert [] + acc == acc;
  }
}
