/**
 * List comprehensions the core uses over issue lists: counting the items that
 * satisfy a test (`len([i for i in xs if p(i)])`), summing a weight per item,
 * and filtering (`[i for i in xs if p(i)]`). Each is defined on the last
 * element, the way a `for` loop that appends builds it.
 */
module Seqs {

  function Count<T>(s: seq<T>, f: T -> bool): (n: nat)
    ensures n <= |s|
  {
    if s == [] then 0 else Count(s[..|s| - 1], f) + (if f(s[|s| - 1]) then 1 else 0)
  }

  function Sum<T>(s: seq<T>, w: T -> nat): nat {
    if s == [] then 0 else Sum(s[..|s| - 1], w) + w(s[|s| - 1])
  }

  function Filter<T>(s: seq<T>, f: T -> bool): (r: seq<T>)
    ensures |r| <= |s|
    ensures forall i :: 0 <= i < |r| ==> f(r[i])
  {
    if s == [] then [] else Filter(s[..|s| - 1], f) + (if f(s[|s| - 1]) then [s[|s| - 1]] else [])
  }

  lemma {:induction false} CountAppend<T>(a: seq<T>, b: seq<T>, f: T -> bool)
    ensures Count(a + b, f) == Count(a, f) + Count(b, f)
    decreases |b|
  {
    if b != [] {
      assert (a + b)[..|a + b| - 1] == a + b[..|b| - 1];
      CountAppend(a, b[..|b| - 1], f);
    } else {
      assert a + b == a;
    }
  }

  lemma {:induction false} SumAppend<T>(a: seq<T>, b: seq<T>, w: T -> nat)
    ensures Sum(a + b, w) == Sum(a, w) + Sum(b, w)
    decreases |b|
  {
    if b != [] {
      assert (a + b)[..|a + b| - 1] == a + b[..|b| - 1];
      SumAppend(a, b[..|b| - 1], w);
    } else {
      assert a + b == a;
    }
  }

  lemma {:induction false} FilterAppend<T>(a: seq<T>, b: seq<T>, f: T -> bool)
    ensures Filter(a + b, f) == Filter(a, f) + Filter(b, f)
    decreases |b|
  {
    if b != [] {
      assert (a + b)[..|a + b| - 1] == a + b[..|b| - 1];
      FilterAppend(a, b[..|b| - 1], f);
    } else {
      assert a + b == a;
    }
  }

  /** The filter keeps every item that passes the test and nothing else. */
  lemma {:induction false} FilterMembers<T>(s: seq<T>, f: T -> bool)
    ensures forall x :: x in Filter(s, f) <==> x in s && f(x)
  {
    if s != [] {
      FilterMembers(s[..|s| - 1], f);
      assert s == s[..|s| - 1] + [s[|s| - 1]];
    }
  }

  /** The filter keeps exactly as many items as pass the test. */
  lemma {:induction false} FilterLength<T>(s: seq<T>, f: T -> bool)
    ensures |Filter(s, f)| == Count(s, f)
  {
    if s != [] {
      FilterLength(s[..|s| - 1], f);
    }
  }

  /** Each item that passes the test is kept as often as it occurs; the others are dropped. */
  lemma {:induction false} FilterMultiset<T>(s: seq<T>, f: T -> bool, x: T)
    ensures multiset(Filter(s, f))[x] == if f(x) then multiset(s)[x] else 0
  {
    if s != [] {
      FilterMultiset(s[..|s| - 1], f, x);
      assert s == s[..|s| - 1] + [s[|s| - 1]];
    }
  }

  /** A sequence split around position `j`. */
  lemma SplitAt<T>(s: seq<T>, j: nat)
    requires j < |s|
    ensures s == s[..j] + [s[j]] + s[j + 1..]
  {
  }

  lemma MultisetRemove<T>(a: seq<T>, b: seq<T>, j: nat)
    requires multiset(a) == multiset(b) && |a| > 0 && j < |b| && b[j] == a[|a| - 1]
    ensures multiset(a[..|a| - 1]) == multiset(b[..j] + b[j + 1..])
  {
    assert a == a[..|a| - 1] + [a[|a| - 1]];
    assert multiset(a) == multiset(a[..|a| - 1]) + multiset{b[j]};
    SplitAt(b, j);
    assert multiset(b) == multiset(b[..j]) + multiset{b[j]} + multiset(b[j + 1..]);
    assert multiset(b[..j] + b[j + 1..]) == multiset(b[..j]) + multiset(b[j + 1..]);
    assert multiset(a[..|a| - 1]) == multiset(a) - multiset{b[j]};
    assert multiset(b) - multiset{b[j]} == multiset(b[..j]) + multiset(b[j + 1..]);
  }

  /** Counting does not depend on the order of the items. */
  lemma {:induction false} CountPermutation<T>(a: seq<T>, b: seq<T>, f: T -> bool)
    requires multiset(a) == multiset(b)
    ensures Count(a, f) == Count(b, f)
    decreases |a|
  {
    if a == [] {
      assert |b| == |multiset(b)| == 0;
    } else {
      var x := a[|a| - 1];
      assert x in multiset(b);
      var j :| 0 <= j < |b| && b[j] == x;
      var rest := b[..j] + b[j + 1..];
      MultisetRemove(a, b, j);
      CountPermutation(a[..|a| - 1], rest, f);
      SplitAt(b, j);
      CountAppend(b[..j] + [x], b[j + 1..], f);
      CountAppend(b[..j], [x], f);
      CountAppend(b[..j], b[j + 1..], f);
      assert Count([x], f) == (if f(x) then 1 else 0) by {
        assert [x][..0] == [];
      }
    }
  }

  /** Summing does not depend on the order of the items. */
  lemma {:induction false} SumPermutation<T>(a: seq<T>, b: seq<T>, w: T -> nat)
    requires multiset(a) == multiset(b)
    ensures Sum(a, w) == Sum(b, w)
    decreases |a|
  {
    if a == [] {
      assert |b| == |multiset(b)| == 0;
    } else {
      var x := a[|a| - 1];
      assert x in multiset(b);
      var j :| 0 <= j < |b| && b[j] == x;
      var rest := b[..j] + b[j + 1..];
      MultisetRemove(a, b, j);
      SumPermutation(a[..|a| - 1], rest, w);
      SplitAt(b, j);
      SumAppend(b[..j] + [x], b[j + 1..], w);
      SumAppend(b[..j], [x], w);
      SumAppend(b[..j], b[j + 1..], w);
      assert Sum([x], w) == w(x) by {
        assert [x][..0] == [];
      }
    }
  }
}
