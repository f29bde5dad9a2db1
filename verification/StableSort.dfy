/**
 * The stable `std::list::sort` that both the timer list and the loop-runner list rely on
 * (section 23.3.5.5 of ISO/IEC 14882:2011), as a merge sort over keyed items.
 */
module StableSort {

  /** A list element together with the key it is sorted by: a deadline or a priority. */
  datatype Keyed<+T> = Keyed(key: int, item: T)

  ghost predicate Sorted<T>(s: seq<Keyed<T>>) {
    forall i, j :: 0 <= i < j < |s| ==> s[i].key <= s[j].key
  }

  /** The elements of `s` with key `k`, in the order in which they occur. */
  function WithKey<T>(s: seq<Keyed<T>>, k: int): seq<Keyed<T>> {
    if s == [] then []
    else if s[0].key == k then [s[0]] + WithKey(s[1..], k)
    else WithKey(s[1..], k)
  }

  /** `r` is sorted and, key by key, has the elements of `s` in their original order. */
  ghost predicate StableSortOf<T>(s: seq<Keyed<T>>, r: seq<Keyed<T>>) {
    Sorted(r) && forall k :: WithKey(r, k) == WithKey(s, k)
  }

  // ---------- the sort ----------

  /** Merges two runs; on equal keys the element of the left run goes first. */
  function Merge<T>(a: seq<Keyed<T>>, b: seq<Keyed<T>>): seq<Keyed<T>>
    decreases |a| + |b|
  {
    if a == [] then b
    else if b == [] then a
    else if b[0].key < a[0].key then [b[0]] + Merge(a, b[1..])
    else [a[0]] + Merge(a[1..], b)
  }

  function ListSort<T>(s: seq<Keyed<T>>): seq<Keyed<T>>
    decreases |s|
  {
    if |s| <= 1 then s
    else Merge(ListSort(s[..|s| / 2]), ListSort(s[|s| / 2..]))
  }

  lemma {:induction false} WithKeyConcat<T>(a: seq<Keyed<T>>, b: seq<Keyed<T>>, k: int)
    ensures WithKey(a + b, k) == WithKey(a, k) + WithKey(b, k)
  {
    if a == [] {
      assert a + b == b;
    } else {
      assert (a + b)[1..] == a[1..] + b;
      WithKeyConcat(a[1..], b, k);
    }
  }

  lemma {:induction false} WithKeyAbsent<T>(s: seq<Keyed<T>>, k: int)
    requires forall i :: 0 <= i < |s| ==> s[i].key != k
    ensures WithKey(s, k) == []
  {
    if s == [] {
    } else {
      WithKeyAbsent(s[1..], k);
    }
  }

  lemma {:induction false} MergeKeys<T>(a: seq<Keyed<T>>, b: seq<Keyed<T>>, low: int)
    requires Sorted(a) && Sorted(b)
    requires forall i :: 0 <= i < |a| ==> low <= a[i].key
    requires forall i :: 0 <= i < |b| ==> low <= b[i].key
    ensures Sorted(Merge(a, b))
    ensures forall i :: 0 <= i < |Merge(a, b)| ==> low <= Merge(a, b)[i].key
    decreases |a| + |b|
  {
    if a == [] || b == [] {
    } else if b[0].key < a[0].key {
      MergeKeys(a, b[1..], b[0].key);
    } else {
      MergeKeys(a[1..], b, a[0].key);
    }
  }

  lemma {:induction false} MergeIsStable<T>(a: seq<Keyed<T>>, b: seq<Keyed<T>>, k: int)
    requires Sorted(a) && Sorted(b)
    ensures WithKey(Merge(a, b), k) == WithKey(a, k) + WithKey(b, k)
    decreases |a| + |b|
  {
    if a == [] || b == [] {
    } else if b[0].key < a[0].key {
      MergeIsStable(a, b[1..], k);
      if b[0].key == k { WithKeyAbsent(a, k); }
    } else {
      MergeIsStable(a[1..], b, k);
    }
  }

  lemma MergeSorted<T>(a: seq<Keyed<T>>, b: seq<Keyed<T>>)
    requires Sorted(a) && Sorted(b)
    ensures Sorted(Merge(a, b))
  {
    if a != [] && b != [] { MergeKeys(a, b, if a[0].key <= b[0].key then a[0].key else b[0].key); }
  }

  /** The sort yields a stable sort of its input. */
  lemma {:induction false} ListSortIsStable<T>(s: seq<Keyed<T>>)
    ensures StableSortOf(s, ListSort(s))
    decreases |s|
  {
    if |s| <= 1 {
    } else {
      var a, b := s[..|s| / 2], s[|s| / 2..];
      ListSortIsStable(a);
      ListSortIsStable(b);
      MergeSorted(ListSort(a), ListSort(b));
      assert a + b == s;
      forall k ensures WithKey(ListSort(s), k) == WithKey(s, k) {
        MergeIsStable(ListSort(a), ListSort(b), k);
        WithKeyConcat(a, b, k);
      }
    }
  }

  // ---------- what stability determines ----------

  lemma {:induction false} WithKeyCount<T>(s: seq<Keyed<T>>, x: Keyed<T>)
    ensures multiset(s)[x] == multiset(WithKey(s, x.key))[x]
  {
    if s == [] {
    } else {
      WithKeyCount(s[1..], x);
      assert s == [s[0]] + s[1..];
      if s[0].key == x.key {
        assert multiset(WithKey(s, x.key)) == multiset{s[0]} + multiset(WithKey(s[1..], x.key));
      }
    }
  }

  /** A stable sort loses, adds and duplicates nothing. */
  lemma StableSortPermutes<T>(s: seq<Keyed<T>>, r: seq<Keyed<T>>)
    requires StableSortOf(s, r)
    ensures multiset(r) == multiset(s)
  {
    forall x ensures multiset(r)[x] == multiset(s)[x] {
      WithKeyCount(r, x);
      WithKeyCount(s, x);
      assert WithKey(r, x.key) == WithKey(s, x.key);
    }
  }

  lemma SmallestKey<T>(p: seq<Keyed<T>>, q: seq<Keyed<T>>)
    requires Sorted(p) && Sorted(q) && p != []
    requires WithKey(p, p[0].key) == WithKey(q, p[0].key)
    ensures q != [] && q[0].key <= p[0].key
  {
    if q != [] && p[0].key < q[0].key { WithKeyAbsent(q, p[0].key); }
  }

  /** Two sorted lists that agree key by key are equal. */
  lemma {:induction false} StableSortUnique<T>(p: seq<Keyed<T>>, q: seq<Keyed<T>>)
    requires Sorted(p) && Sorted(q)
    requires forall k :: WithKey(p, k) == WithKey(q, k)
    ensures p == q
  {
    if p == [] {
      if q != [] { SmallestKey(q, p); }
    } else {
      SmallestKey(p, q);
      SmallestKey(q, p);
      var k := p[0].key;
      assert WithKey(p, k)[0] == p[0] && WithKey(q, k)[0] == q[0];
      forall j ensures WithKey(p[1..], j) == WithKey(q[1..], j) {
        assert WithKey(p, j) == WithKey(q, j);
        if j == k {
          assert WithKey(p[1..], j) == WithKey(p, j)[1..];
          assert WithKey(q[1..], j) == WithKey(q, j)[1..];
        }
      }
      StableSortUnique(p[1..], q[1..]);
      assert p == [p[0]] + p[1..] && q == [q[0]] + q[1..];
    }
  }

  /** How many leading elements of `s` have a key not above `k`. */
  function UpperBound<T>(s: seq<Keyed<T>>, k: int): (n: nat)
    ensures n <= |s|
    ensures forall i :: 0 <= i < n ==> s[i].key <= k
    ensures n < |s| ==> k < s[n].key
  {
    if s == [] || k < s[0].key then 0 else 1 + UpperBound(s[1..], k)
  }

  /** Insertion behind every element with the same or a smaller key. */
  function InsertStable<T>(s: seq<Keyed<T>>, x: Keyed<T>): seq<Keyed<T>> {
    var n := UpperBound(s, x.key);
    s[..n] + [x] + s[n..]
  }

  lemma InsertStableSorted<T>(s: seq<Keyed<T>>, x: Keyed<T>)
    requires Sorted(s)
    ensures Sorted(InsertStable(s, x))
  {}

  /** An element may be moved in front of elements with other keys. */
  lemma WithKeyMoved<T>(before: seq<Keyed<T>>, x: Keyed<T>, after: seq<Keyed<T>>, k: int)
    requires forall i :: 0 <= i < |after| ==> after[i].key != x.key
    ensures WithKey(before + [x] + after, k) == WithKey(before + after + [x], k)
  {
    WithKeyConcat(before, after, k);
    WithKeyConcat(before + after, [x], k);
    WithKeyConcat(before + [x], after, k);
    WithKeyConcat(before, [x], k);
    if k == x.key { WithKeyAbsent(after, k); }
  }

  lemma InsertStableKeeps<T>(s: seq<Keyed<T>>, x: Keyed<T>, k: int)
    requires Sorted(s)
    ensures WithKey(InsertStable(s, x), k) == WithKey(s + [x], k)
  {
    var n := UpperBound(s, x.key);
    WithKeyMoved(s[..n], x, s[n..], k);
    assert s[..n] + s[n..] == s;
  }

  /** Appending to a sorted list and sorting it again inserts behind all equal keys. */
  lemma {:induction false} AppendThenSort<T>(s: seq<Keyed<T>>, x: Keyed<T>)
    requires Sorted(s)
    ensures ListSort(s + [x]) == InsertStable(s, x)
  {
    var r := ListSort(s + [x]);
    ListSortIsStable(s + [x]);
    InsertStableSorted(s, x);
    forall k ensures WithKey(r, k) == WithKey(InsertStable(s, x), k) {
      assert WithKey(r, k) == WithKey(s + [x], k);
      InsertStableKeeps(s, x, k);
    }
    StableSortUnique(r, InsertStable(s, x));
  }

  lemma ListInserted<T>(s: seq<Keyed<T>>, x: Keyed<T>)
    requires Sorted(s)
    ensures Sorted(ListSort(s + [x]))
    ensures forall e :: e in ListSort(s + [x]) <==> e in s || e == x
  {
    AppendThenSort(s, x);
    InsertStableSorted(s, x);
    var n := UpperBound(s, x.key);
    assert s == s[..n] + s[n..];
    assert x in InsertStable(s, x);
  }

  /** The new element stands behind every element whose key is not larger and in front of the others. */
  lemma InsertStableSplits<T>(s: seq<Keyed<T>>, x: Keyed<T>) returns (n: nat)
    requires Sorted(s)
    ensures n <= |s| && InsertStable(s, x) == s[..n] + [x] + s[n..]
    ensures (forall i :: 0 <= i < n ==> s[i].key <= x.key) && (forall i :: n <= i < |s| ==> x.key < s[i].key)
  {
    n := UpperBound(s, x.key);
  }
}
