/** Small sequence helpers shared by the systems that loop over entities. */
module Collections {
  import opened Wrappers

  /** No object appears twice: what an ECS query over distinct entities yields. */
  predicate Distinct<T(==)>(s: seq<T>)
  {
    forall i, j :: 0 <= i < j < |s| ==> s[i] != s[j]
  }

  /** Joining two duplicate-free sequences with no element in common gives a duplicate-free sequence. */
  lemma DistinctAppend<T>(a: seq<T>, b: seq<T>)
    requires Distinct(a) && Distinct(b)
    requires forall x :: x in b ==> x !in a
    ensures Distinct(a + b)
  {
    forall i, j | 0 <= i < j < |a + b|
      ensures (a + b)[i] != (a + b)[j]
    {
      if j >= |a| {
        assert (a + b)[j] == b[j - |a|] && b[j - |a|] in b;
        if i >= |a| {
          assert (a + b)[i] == b[i - |a|];
        } else {
          assert (a + b)[i] == a[i] && a[i] in a;
        }
      } else {
        assert (a + b)[i] == a[i] && (a + b)[j] == a[j];
      }
    }
  }

  /** Rust's `iter().filter(p).collect()`: the elements satisfying p, in their original order. */
  function Filter<T(!new)>(s: seq<T>, p: T -> bool): (r: seq<T>)
    ensures |r| <= |s|
    ensures forall x :: x in r <==> x in s && p(x)
  {
    if s == [] then []
    else
      var rest := Filter(s[..|s| - 1], p);
      assert forall x :: x in s <==> x in s[..|s| - 1] || x == s[|s| - 1];
      if p(s[|s| - 1]) then rest + [s[|s| - 1]] else rest
  }

  /** Filtering distributes over concatenation, so the original order is kept. */
  lemma {:induction false} FilterAppend<T(!new)>(s: seq<T>, t: seq<T>, p: T -> bool)
    ensures Filter(s + t, p) == Filter(s, p) + Filter(t, p)
  {
    if t != [] {
      var n := |t| - 1;
      assert (s + t)[..|s + t| - 1] == s + t[..n];
      FilterAppend(s, t[..n], p);
    } else {
      assert s + t == s;
    }
  }

  /** Rust's `iter().filter_map(f).collect()`: the present results of f, in the order of s. */
  function FilterMap<T, U>(s: seq<T>, f: T -> Option<U>): (r: seq<U>)
    ensures |r| <= |s|
  {
    if s == [] then []
    else
      var rest := FilterMap(s[..|s| - 1], f);
      match f(s[|s| - 1])
      case Some(y) => rest + [y]
      case None => rest
  }

  /** A value is kept iff f yields it for some element. */
  lemma {:induction false} FilterMapMembers<T, U>(s: seq<T>, f: T -> Option<U>, y: U)
    ensures y in FilterMap(s, f) <==> exists k :: 0 <= k < |s| && f(s[k]) == Some(y)
  {
    if s != [] {
      var n := |s| - 1;
      FilterMapMembers(s[..n], f, y);
      assert forall k :: 0 <= k < n ==> s[..n][k] == s[k];
      if y in FilterMap(s, f) && y !in FilterMap(s[..n], f) {
        assert f(s[n]) == Some(y);
      }
    }
  }

  /** filter_map distributes over concatenation, so the order of the elements is kept. */
  lemma {:induction false} FilterMapAppend<T, U>(s: seq<T>, t: seq<T>, f: T -> Option<U>)
    ensures FilterMap(s + t, f) == FilterMap(s, f) + FilterMap(t, f)
  {
    if t != [] {
      var n := |t| - 1;
      assert (s + t)[..|s + t| - 1] == s + t[..n];
      assert (s + t)[|s + t| - 1] == t[n];
      FilterMapAppend(s, t[..n], f);
    } else {
      assert s + t == s;
    }
  }

  /** When f yields a value for every element, filter_map keeps exactly those values. */
  lemma {:induction false} FilterMapAll<T, U>(s: seq<T>, f: T -> Option<U>, r: seq<U>)
    requires |s| == |r| && forall k :: 0 <= k < |s| ==> f(s[k]) == Some(r[k])
    ensures FilterMap(s, f) == r
  {
    if s != [] {
      var n := |s| - 1;
      assert forall k :: 0 <= k < n ==> s[..n][k] == s[k] && r[..n][k] == r[k];
      FilterMapAll(s[..n], f, r[..n]);
      assert r == r[..n] + [r[n]];
    }
  }
}
