/** Generic sequence operations behind the source's `Array.prototype` calls: `filter`, `find`,
    the sum a reduction would give, and the stable `sort` with a numeric comparator. */
module Seqs {
  import opened Wrappers

  /** The elements of `s` that satisfy `p`, in their original order (`s.filter(p)`). */
  function Filter<T>(s: seq<T>, p: T -> bool): (r: seq<T>)
    ensures |r| <= |s|
    decreases |s|
  {
    if s == [] then []
    else if p(s[0]) then [s[0]] + Filter(s[1..], p)
    else Filter(s[1..], p)
  }

  /** The filtered sequence holds exactly the elements of `s` that satisfy `p`. */
  lemma {:induction false} FilterMembers<T>(s: seq<T>, p: T -> bool, x: T)
    ensures x in Filter(s, p) <==> x in s && p(x)
    decreases |s|
  {
    if s != [] {
      FilterMembers(s[1..], p, x);
      assert s == [s[0]] + s[1..];
    }
  }

  lemma {:induction false} FilterAppend<T>(a: seq<T>, b: seq<T>, p: T -> bool)
    ensures Filter(a + b, p) == Filter(a, p) + Filter(b, p)
    decreases |a|
  {
    if a == [] {
      assert a + b == b;
    } else {
      assert (a + b)[1..] == a[1..] + b;
      FilterAppend(a[1..], b, p);
    }
  }

  /** Filtering one more element at the end adds it to the result exactly when it qualifies. */
  lemma FilterSnoc<T>(s: seq<T>, x: T, p: T -> bool)
    ensures Filter(s + [x], p) == Filter(s, p) + (if p(x) then [x] else [])
  {
    FilterAppend(s, [x], p);
    assert [x][1..] == [];
  }

  /** Filtering a sequence whose every element qualifies keeps it whole. */
  lemma {:induction false} FilterAll<T>(s: seq<T>, p: T -> bool)
    requires forall i :: 0 <= i < |s| ==> p(s[i])
    ensures Filter(s, p) == s
    decreases |s|
  {
    if s != [] {
      FilterAll(s[1..], p);
    }
  }

  /** Filtering a sequence none of whose elements qualifies leaves nothing. */
  lemma {:induction false} FilterNone<T>(s: seq<T>, p: T -> bool)
    requires forall i :: 0 <= i < |s| ==> !p(s[i])
    ensures Filter(s, p) == []
    decreases |s|
  {
    if s != [] {
      FilterNone(s[1..], p);
    }
  }

  /** Two tests that agree on every element of `s` filter it alike. */
  lemma {:induction false} FilterCongruent<T>(s: seq<T>, p: T -> bool, q: T -> bool)
    requires forall i :: 0 <= i < |s| ==> p(s[i]) == q(s[i])
    ensures Filter(s, p) == Filter(s, q)
    decreases |s|
  {
    if s != [] {
      FilterCongruent(s[1..], p, q);
    }
  }

  /** Filtering keeps the number of occurrences of each qualifying element. */
  lemma {:induction false} FilterMultiset<T>(s: seq<T>, p: T -> bool, x: T)
    requires p(x)
    ensures multiset(Filter(s, p))[x] == multiset(s)[x]
    decreases |s|
  {
    if s != [] {
      FilterMultiset(s[1..], p, x);
      assert s == [s[0]] + s[1..];
    }
  }

  /** The sum of `key` over `s` (a `reduce((acc, x) => acc + key(x), 0)`). */
  function SumOf<T>(s: seq<T>, key: T -> int): int
    decreases |s|
  {
    if s == [] then 0 else SumOf(s[..|s| - 1], key) + key(s[|s| - 1])
  }

  lemma {:induction false} SumOfAppend<T>(a: seq<T>, b: seq<T>, key: T -> int)
    ensures SumOf(a + b, key) == SumOf(a, key) + SumOf(b, key)
    decreases |b|
  {
    if b == [] {
      assert a + b == a;
    } else {
      assert (a + b)[..|a + b| - 1] == a + b[..|b| - 1];
      SumOfAppend(a, b[..|b| - 1], key);
    }
  }

  /** Elements whose key is zero contribute nothing: dropping them keeps the sum. */
  lemma {:induction false} SumOfDropsZeros<T>(s: seq<T>, key: T -> int, p: T -> bool)
    requires forall x :: x in s && !p(x) ==> key(x) == 0
    ensures SumOf(Filter(s, p), key) == SumOf(s, key)
    decreases |s|
  {
    if s != [] {
      assert s == [s[0]] + s[1..];
      SumOfAppend([s[0]], s[1..], key);
      SumOfDropsZeros(s[1..], key, p);
      if p(s[0]) {
        SumOfAppend([s[0]], Filter(s[1..], p), key);
      }
    }
  }

  /** `s.find(p)`: the first element satisfying `p`, or nothing. */
  function Find<T>(s: seq<T>, p: T -> bool): Option<T>
    decreases |s|
  {
    if s == [] then None
    else if p(s[0]) then Some(s[0])
    else Find(s[1..], p)
  }

  /** `find` yields an element satisfying `p` with none before it, and yields nothing exactly
      when no element satisfies `p`. */
  lemma {:induction false} FindSpec<T>(s: seq<T>, p: T -> bool)
    ensures var r := Find(s, p);
      && (r.Some? ==> exists i :: 0 <= i < |s| && s[i] == r.value && p(s[i]) && forall j :: 0 <= j < i ==> !p(s[j]))
      && (r.None? <==> forall i :: 0 <= i < |s| ==> !p(s[i]))
    decreases |s|
  {
    if s != [] && !p(s[0]) {
      FindSpec(s[1..], p);
      var r := Find(s[1..], p);
      if r.Some? {
        var i :| 0 <= i < |s[1..]| && s[1..][i] == r.value && p(s[1..][i]) && forall j :: 0 <= j < i ==> !p(s[1..][j]);
        assert s[i + 1] == r.value;
        assert forall j :: 0 <= j < i + 1 ==> !p(s[j]) by {
          forall j | 0 <= j < i + 1 ensures !p(s[j]) {
            if j > 0 { assert s[j] == s[1..][j - 1]; }
          }
        }
      } else {
        assert forall i :: 1 <= i < |s| ==> s[i] == s[1..][i - 1];
      }
    }
  }

  /** Two tests that agree on every element of `s` find the same element. */
  lemma {:induction false} FindCongruent<T>(s: seq<T>, p: T -> bool, q: T -> bool)
    requires forall i :: 0 <= i < |s| ==> p(s[i]) == q(s[i])
    ensures Find(s, p) == Find(s, q)
    decreases |s|
  {
    if s != [] {
      FindCongruent(s[1..], p, q);
    }
  }

  /** `key` does not increase along `s`. */
  ghost predicate SortedDesc<T>(s: seq<T>, key: T -> int)
  {
    forall i, j :: 0 <= i < j < |s| ==> key(s[i]) >= key(s[j])
  }

  /** The elements of `s` whose key is `k`, in order: the ties a stable sort must not reorder. */
  function WithKey<T>(s: seq<T>, key: T -> int, k: int): seq<T>
  {
    Filter(s, x => key(x) == k)
  }

  /** Puts `x` in front of the first element of `r` whose key is not larger than its own.
      `x` was before every element of `r` in the input, so ties keep their order. */
  function Insert<T>(x: T, r: seq<T>, key: T -> int): (out: seq<T>)
    ensures |out| == |r| + 1
    decreases |r|
  {
    if r == [] || key(x) >= key(r[0]) then [x] + r
    else [r[0]] + Insert(x, r[1..], key)
  }

  lemma {:induction false} InsertMultiset<T>(x: T, r: seq<T>, key: T -> int)
    ensures multiset(Insert(x, r, key)) == multiset{x} + multiset(r)
    decreases |r|
  {
    if r != [] && key(x) < key(r[0]) {
      InsertMultiset(x, r[1..], key);
      assert r == [r[0]] + r[1..];
    }
  }

  /** `x` goes in right after the leading elements whose keys exceed its own. */
  lemma {:induction false} InsertAt<T>(x: T, r: seq<T>, key: T -> int, m: nat)
    requires m <= |r|
    requires forall i :: 0 <= i < m ==> key(r[i]) > key(x)
    requires m == |r| || key(x) >= key(r[m])
    ensures Insert(x, r, key) == r[..m] + [x] + r[m..]
    decreases m
  {
    if m > 0 {
      InsertAt(x, r[1..], key, m - 1);
      assert r[..m] == [r[0]] + r[1..][..m - 1];
      assert r[m..] == r[1..][m - 1..];
    }
  }

  /** `s.sort((a, b) => key(b) - key(a))`: descending by key, stable (ECMAScript 2019 onward). */
  function SortDesc<T>(s: seq<T>, key: T -> int): seq<T>
    decreases |s|
  {
    if s == [] then [] else Insert(s[0], SortDesc(s[1..], key), key)
  }

  lemma {:induction false} InsertSorted<T>(x: T, r: seq<T>, key: T -> int)
    requires SortedDesc(r, key)
    ensures SortedDesc(Insert(x, r, key), key)
    ensures Insert(x, r, key) != [] && (key(Insert(x, r, key)[0]) == key(x) || (r != [] && key(Insert(x, r, key)[0]) == key(r[0])))
    decreases |r|
  {
    if r == [] || key(x) >= key(r[0]) {
    } else {
      InsertSorted(x, r[1..], key);
    }
  }

  lemma {:induction false} InsertKeepsTies<T>(x: T, r: seq<T>, key: T -> int, k: int)
    requires SortedDesc(r, key)
    ensures WithKey(Insert(x, r, key), key, k) == (if key(x) == k then [x] else []) + WithKey(r, key, k)
    decreases |r|
  {
    var p := y => key(y) == k;
    if r == [] || key(x) >= key(r[0]) {
      FilterAppend([x], r, p);
      assert [x][1..] == [];
    } else {
      var rest := Insert(x, r[1..], key);
      FilterAppend([r[0]], rest, p);
      assert [r[0]][1..] == [];
      InsertKeepsTies(x, r[1..], key, k);
      FilterAppend([r[0]], r[1..], p);
      assert r == [r[0]] + r[1..];
      assert [r[0]] + rest == Insert(x, r, key);
    }
  }

  /** The sort puts the keys in descending order and keeps exactly the input's elements. */
  lemma {:induction false} SortDescSpec<T>(s: seq<T>, key: T -> int)
    ensures SortedDesc(SortDesc(s, key), key)
    ensures multiset(SortDesc(s, key)) == multiset(s)
    ensures |SortDesc(s, key)| == |s|
    decreases |s|
  {
    if s != [] {
      SortDescSpec(s[1..], key);
      InsertSorted(s[0], SortDesc(s[1..], key), key);
      InsertMultiset(s[0], SortDesc(s[1..], key), key);
      assert s == [s[0]] + s[1..];
    }
  }

  /** The sort is stable: elements with equal keys stay in their input order. */
  lemma {:induction false} SortDescStable<T>(s: seq<T>, key: T -> int, k: int)
    ensures WithKey(SortDesc(s, key), key, k) == WithKey(s, key, k)
    decreases |s|
  {
    if s != [] {
      SortDescSpec(s[1..], key);
      SortDescStable(s[1..], key, k);
      InsertKeepsTies(s[0], SortDesc(s[1..], key), key, k);
      var p := y => key(y) == k;
      FilterAppend([s[0]], s[1..], p);
      assert [s[0]][1..] == [];
      assert s == [s[0]] + s[1..];
    }
  }
}
