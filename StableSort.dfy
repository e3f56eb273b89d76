/**
  A stable sort, highest key first, as `Array.prototype.sort` with the comparator
  `(a, b) => key(b) - key(a)` behaves since ECMAScript 2019 (section 23.1.3.30 of ECMA-262,
  2023 edition, requires the sort to be stable), and `slice(0, n)`. The sort is modelled
  as an insertion sort.
*/
module StableSort {
  predicate SortedDesc<T>(s: seq<T>, key: T -> int) {
    forall i, j :: 0 <= i < j < |s| ==> key(s[i]) >= key(s[j])
  }

  /** Inserts `m` into a list sorted highest first, after every entry with a key at least
      as large, so that `m`, which comes later in the input, follows its equals. */
  function Insert<T>(m: T, s: seq<T>, key: T -> int): seq<T> {
    if s == [] then [m]
    else if key(s[0]) >= key(m) then [s[0]] + Insert(m, s[1..], key)
    else [m] + s
  }

  /** `sort((a, b) => key(b) - key(a))`, stably. */
  function SortDesc<T>(s: seq<T>, key: T -> int): seq<T> {
    if s == [] then [] else Insert(s[|s| - 1], SortDesc(s[..|s| - 1], key), key)
  }

  /** `slice(0, n)`. */
  function Take<T>(s: seq<T>, n: nat): seq<T> {
    if |s| <= n then s else s[..n]
  }

  /** The entries whose key is exactly `v`, in list order. */
  function WithKey<T>(s: seq<T>, key: T -> int, v: int): seq<T> {
    if s == [] then []
    else (if key(s[0]) == v then [s[0]] else []) + WithKey(s[1..], key, v)
  }

  // ---------------------------------------------------------------------------------
  // The sort

  lemma {:induction false} WithKeyAppend<T>(a: seq<T>, b: seq<T>, key: T -> int, v: int)
    ensures WithKey(a + b, key, v) == WithKey(a, key, v) + WithKey(b, key, v)
  {
    if a != [] {
      assert (a + b)[1..] == a[1..] + b;
      WithKeyAppend(a[1..], b, key, v);
    } else {
      assert a + b == b;
    }
  }

  lemma WithKeyCons<T>(x: T, t: seq<T>, key: T -> int, v: int)
    ensures WithKey([x] + t, key, v) == (if key(x) == v then [x] else []) + WithKey(t, key, v)
  {
    assert ([x] + t)[1..] == t;
  }

  lemma {:induction false} WithKeyNone<T>(s: seq<T>, key: T -> int, v: int)
    requires forall i :: 0 <= i < |s| ==> key(s[i]) < v
    ensures WithKey(s, key, v) == []
  {
    if s != [] {
      WithKeyNone(s[1..], key, v);
    }
  }

  lemma {:induction false} InsertPermutes<T>(m: T, s: seq<T>, key: T -> int)
    ensures multiset(Insert(m, s, key)) == multiset(s) + multiset{m}
  {
    if s != [] && key(s[0]) >= key(m) {
      InsertPermutes(m, s[1..], key);
      assert s == [s[0]] + s[1..];
    }
  }

  lemma {:induction false} InsertSorted<T>(m: T, s: seq<T>, key: T -> int)
    requires SortedDesc(s, key)
    ensures SortedDesc(Insert(m, s, key), key)
  {
    if s != [] && key(s[0]) >= key(m) {
      var t := Insert(m, s[1..], key);
      InsertSorted(m, s[1..], key);
      InsertPermutes(m, s[1..], key);
      forall j | 0 <= j < |t| ensures key(s[0]) >= key(t[j]) {
        assert t[j] in multiset(s[1..]) + multiset{m};
      }
    }
  }

  /** Among the entries with any one key, the inserted one comes last. */
  lemma {:induction false} InsertStable<T>(m: T, s: seq<T>, key: T -> int, v: int)
    requires SortedDesc(s, key)
    ensures WithKey(Insert(m, s, key), key, v) == WithKey(s, key, v) + (if key(m) == v then [m] else [])
  {
    if s == [] {
    } else if key(s[0]) >= key(m) {
      InsertStable(m, s[1..], key, v);
      WithKeyCons(s[0], Insert(m, s[1..], key), key, v);
      WithKeyCons(s[0], s[1..], key, v);
      assert [s[0]] + s[1..] == s;
    } else {
      WithKeyCons(m, s, key, v);
      if key(m) == v {
        WithKeyNone(s, key, v);
      }
    }
  }

  /** The sort returns a permutation of its input. */
  lemma {:induction false} SortDescPermutes<T>(s: seq<T>, key: T -> int)
    ensures multiset(SortDesc(s, key)) == multiset(s)
  {
    if s != [] {
      SortDescPermutes(s[..|s| - 1], key);
      InsertPermutes(s[|s| - 1], SortDesc(s[..|s| - 1], key), key);
      assert s == s[..|s| - 1] + [s[|s| - 1]];
    }
  }

  /** The sort returns its input sorted highest first. */
  lemma {:induction false} SortDescSorted<T>(s: seq<T>, key: T -> int)
    ensures SortedDesc(SortDesc(s, key), key)
  {
    if s != [] {
      SortDescSorted(s[..|s| - 1], key);
      InsertSorted(s[|s| - 1], SortDesc(s[..|s| - 1], key), key);
    }
  }

  /** The sort keeps the input order among entries with equal keys. */
  lemma {:induction false} SortDescStable<T>(s: seq<T>, key: T -> int, v: int)
    ensures WithKey(SortDesc(s, key), key, v) == WithKey(s, key, v)
  {
    if s != [] {
      var init, last := s[..|s| - 1], s[|s| - 1];
      SortDescStable(init, key, v);
      SortDescSorted(init, key);
      InsertStable(last, SortDesc(init, key), key, v);
      assert SortDesc(s, key) == Insert(last, SortDesc(init, key), key);
      assert s == init + [last];
      WithKeyAppend(init, [last], key, v);
      WithKeyCons(last, [], key, v);
      assert [last] + [] == [last];
      assert WithKey([last], key, v) == (if key(last) == v then [last] else []);
    }
  }

  /** Keeping the first `n` entries of a list keeps min(n, |s|) of them, a sub-multiset
      whose entries with any one key are a prefix of those in `s`. */
  lemma TakeSpec<T>(s: seq<T>, n: nat, key: T -> int)
    ensures |Take(s, n)| == (if |s| < n then |s| else n)
    ensures multiset(Take(s, n)) <= multiset(s)
    ensures forall v :: WithKey(Take(s, n), key, v) <= WithKey(s, key, v)
  {
    var k := if |s| <= n then |s| else n;
    assert Take(s, n) == s[..k];
    assert s == s[..k] + s[k..];
    forall v ensures WithKey(Take(s, n), key, v) <= WithKey(s, key, v) {
      WithKeyAppend(s[..k], s[k..], key, v);
    }
  }

  /** Keeping the first entries of a sorted list keeps it sorted, and every entry left out,
      whether named by value or by position past the cut, has a key no larger than the
      last one kept. */
  lemma TakeSorted<T>(s: seq<T>, n: nat, key: T -> int)
    requires n > 0 && SortedDesc(s, key)
    ensures SortedDesc(Take(s, n), key)
    ensures forall m :: m in s && m !in Take(s, n) ==> Take(s, n) != [] && key(m) <= key(Take(s, n)[|Take(s, n)| - 1])
    ensures forall j :: |Take(s, n)| <= j < |s| ==>
              Take(s, n) != [] && key(s[j]) <= key(Take(s, n)[|Take(s, n)| - 1])
  {
    var k := if |s| <= n then |s| else n;
    assert Take(s, n) == s[..k];
    forall m | m in s && m !in Take(s, n) ensures Take(s, n) != [] && key(m) <= key(Take(s, n)[|Take(s, n)| - 1]) {
      var i :| 0 <= i < |s| && s[i] == m;
      assert i >= k;
      assert Take(s, n)[k - 1] == s[k - 1];
    }
  }

  // ---------------------------------------------------------------------------------
  // Repeats

  predicate NoRepeats<T(==)>(s: seq<T>) {
    forall i, j :: 0 <= i < j < |s| ==> s[i] != s[j]
  }

  lemma {:induction false} NoRepeatCount<T>(s: seq<T>)
    requires NoRepeats(s)
    ensures forall x :: multiset(s)[x] <= 1
  {
    if s != [] {
      var init := s[..|s| - 1];
      NoRepeatCount(init);
      assert s == init + [s[|s| - 1]];
      assert s[|s| - 1] !in init;
    }
  }

  lemma RepeatCount<T>(s: seq<T>, i: nat, j: nat)
    requires i < j < |s|
    ensures s[i] == s[j] ==> multiset(s)[s[i]] >= 2
  {
    assert s == s[..j] + s[j..];
    assert s[i] in s[..j];
    assert s[j] in s[j..];
    assert multiset(s)[s[j]] == multiset(s[..j])[s[j]] + multiset(s[j..])[s[j]];
  }

  /** Entries drawn from a list without repeats, each no more often than it occurs
      there, have no repeats either. */
  lemma SubMultisetDistinct<T>(r: seq<T>, s: seq<T>)
    requires multiset(r) <= multiset(s) && NoRepeats(s)
    ensures NoRepeats(r)
  {
    NoRepeatCount(s);
    forall i, j | 0 <= i < j < |r| ensures r[i] != r[j] {
      RepeatCount(r, i, j);
      assert multiset(r)[r[i]] <= multiset(s)[r[i]] <= 1;
    }
  }
}
