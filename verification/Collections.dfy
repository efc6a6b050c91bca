/** Order-preserving operations on sequences of rows. */
module Collections {
  function Filter<T>(p: T -> bool, xs: seq<T>): seq<T> {
    if xs == [] then []
    else (if p(xs[0]) then [xs[0]] else []) + Filter(p, xs[1..])
  }

  function MapSeq<T, U>(f: T -> U, xs: seq<T>): (ys: seq<U>)
    ensures |ys| == |xs|
    ensures forall i :: 0 <= i < |xs| ==> ys[i] == f(xs[i])
  {
    seq(|xs|, i requires 0 <= i < |xs| => f(xs[i]))
  }

  lemma {:induction false} FilterAppend<T>(p: T -> bool, xs: seq<T>, ys: seq<T>)
    ensures Filter(p, xs + ys) == Filter(p, xs) + Filter(p, ys)
  {
    if xs == [] {
      assert xs + ys == ys;
    } else {
      assert (xs + ys)[0] == xs[0] && (xs + ys)[1..] == xs[1..] + ys;
      FilterAppend(p, xs[1..], ys);
      var head := if p(xs[0]) then [xs[0]] else [];
      assert Filter(p, xs + ys) == head + (Filter(p, xs[1..]) + Filter(p, ys));
      assert Filter(p, xs) == head + Filter(p, xs[1..]);
    }
  }

  lemma FilterCons<T>(p: T -> bool, x: T, xs: seq<T>)
    ensures Filter(p, [x] + xs) == if p(x) then [x] + Filter(p, xs) else Filter(p, xs)
  {
    assert ([x] + xs)[1..] == xs;
  }

  lemma FilterHead<T>(p: T -> bool, xs: seq<T>)
    requires xs != []
    ensures Filter(p, xs) == if p(xs[0]) then [xs[0]] + Filter(p, xs[1..]) else Filter(p, xs[1..])
  {
  }

  lemma {:induction false} FilterMembers<T(!new)>(p: T -> bool, xs: seq<T>)
    ensures forall x :: x in Filter(p, xs) <==> x in xs && p(x)
  {
    if xs != [] {
      FilterMembers(p, xs[1..]);
      assert xs == [xs[0]] + xs[1..];
    }
  }

  lemma {:induction false} FilterNested<T(!new)>(p: T -> bool, q: T -> bool, both: T -> bool, xs: seq<T>)
    requires forall x :: both(x) <==> p(x) && q(x)
    ensures Filter(p, Filter(q, xs)) == Filter(both, xs)
  {
    if xs != [] {
      FilterNested(p, q, both, xs[1..]);
      var head := if q(xs[0]) then [xs[0]] else [];
      FilterAppend(p, head, Filter(q, xs[1..]));
    }
  }

  lemma {:induction false} FilterSmaller<T(!new)>(p: T -> bool, q: T -> bool, xs: seq<T>)
    requires forall x :: x in xs && p(x) ==> q(x)
    ensures |Filter(p, xs)| <= |Filter(q, xs)| <= |xs|
  {
    if xs != [] {
      FilterSmaller(p, q, xs[1..]);
    }
  }

  lemma {:induction false} FilterAll<T(!new)>(p: T -> bool, xs: seq<T>)
    requires forall x :: x in xs ==> p(x)
    ensures Filter(p, xs) == xs
  {
    if xs != [] {
      FilterAll(p, xs[1..]);
    }
  }

  lemma {:induction false} FilterNone<T(!new)>(p: T -> bool, xs: seq<T>)
    requires forall x :: x in xs ==> !p(x)
    ensures Filter(p, xs) == []
  {
    if xs != [] {
      FilterNone(p, xs[1..]);
    }
  }

  lemma {:induction false} FilterCounts<T(!new)>(p: T -> bool, xs: seq<T>, x: T)
    ensures multiset(Filter(p, xs))[x] == if p(x) then multiset(xs)[x] else 0
  {
    if xs != [] {
      FilterCounts(p, xs[1..], x);
      assert xs == [xs[0]] + xs[1..];
    }
  }

  /** The rows that pass do not depend on the order of the rows. */
  lemma FilterRearranged<T(!new)>(p: T -> bool, xs: seq<T>, ys: seq<T>)
    requires multiset(xs) == multiset(ys)
    ensures multiset(Filter(p, xs)) == multiset(Filter(p, ys))
  {
    forall x ensures multiset(Filter(p, xs))[x] == multiset(Filter(p, ys))[x] {
      FilterCounts(p, xs, x);
      FilterCounts(p, ys, x);
    }
  }

  lemma {:induction false} FilterMap<T(!new), U>(f: T -> U, p: U -> bool, q: T -> bool, xs: seq<T>)
    requires forall x :: x in xs ==> q(x) == p(f(x))
    ensures Filter(p, MapSeq(f, xs)) == MapSeq(f, Filter(q, xs))
  {
    if xs != [] {
      assert xs[0] in xs;
      assert MapSeq(f, xs)[1..] == MapSeq(f, xs[1..]);
      FilterMap(f, p, q, xs[1..]);
    }
  }

  // ---- Subsequences ----

  /** `xs` is `ys` with some elements left out: the same order, each one used once. */
  predicate Subsequence<T(==)>(xs: seq<T>, ys: seq<T>) {
    if xs == [] then true
    else if ys == [] then false
    else
      var m, n := |xs| - 1, |ys| - 1;
      (xs[m] == ys[n] && Subsequence(xs[..m], ys[..n])) || Subsequence(xs, ys[..n])
  }

  lemma SubsequenceGrows<T>(xs: seq<T>, ys: seq<T>, y: T)
    requires Subsequence(xs, ys)
    ensures Subsequence(xs, ys + [y])
    ensures Subsequence(xs + [y], ys + [y])
  {
    assert (ys + [y])[..|ys|] == ys && (xs + [y])[..|xs|] == xs;
  }

  lemma LastOfJoin<T>(xs: seq<T>, more: seq<T>)
    requires more != []
    ensures var all, m := xs + more, |more| - 1;
            all != [] && all[..|all| - 1] == xs + more[..m] && all[|all| - 1] == more[m]
  {
  }

  lemma {:induction false} SubsequenceJoin<T>(xs: seq<T>, ys: seq<T>, more: seq<T>)
    requires Subsequence(xs, ys)
    ensures Subsequence(xs + more, ys + more)
  {
    if more == [] {
      assert xs + more == xs && ys + more == ys;
    } else {
      LastOfJoin(xs, more);
      LastOfJoin(ys, more);
      SubsequenceJoin(xs, ys, more[..|more| - 1]);
    }
  }

  lemma {:induction false} SubsequenceSkips<T>(xs: seq<T>, ys: seq<T>, more: seq<T>)
    requires Subsequence(xs, ys)
    ensures Subsequence(xs, ys + more)
  {
    if more == [] {
      assert ys + more == ys;
    } else {
      LastOfJoin(ys, more);
      SubsequenceSkips(xs, ys, more[..|more| - 1]);
    }
  }

  lemma {:induction false} SubsequenceMembers<T(!new)>(xs: seq<T>, ys: seq<T>)
    requires Subsequence(xs, ys)
    ensures forall x :: x in xs ==> x in ys
  {
    if xs != [] {
      var m, n := |xs| - 1, |ys| - 1;
      assert xs == xs[..m] + [xs[m]] && ys == ys[..n] + [ys[n]];
      if xs[m] == ys[n] && Subsequence(xs[..m], ys[..n]) {
        SubsequenceMembers(xs[..m], ys[..n]);
      } else {
        SubsequenceMembers(xs, ys[..n]);
      }
    }
  }

  // ---- Stable sorting (ORDER BY, ties in row order) ----

  function InsertSorted<T>(le: (T, T) -> bool, x: T, ys: seq<T>): seq<T> {
    if ys == [] then [x]
    else if le(x, ys[0]) then [x] + ys
    else [ys[0]] + InsertSorted(le, x, ys[1..])
  }

  function Sort<T>(le: (T, T) -> bool, xs: seq<T>): seq<T> {
    if xs == [] then [] else InsertSorted(le, xs[0], Sort(le, xs[1..]))
  }

  ghost predicate TotalPreorder<T(!new)>(le: (T, T) -> bool) {
    && (forall a, b :: le(a, b) || le(b, a))
    && (forall a, b, c :: le(a, b) && le(b, c) ==> le(a, c))
  }

  ghost predicate Sorted<T>(le: (T, T) -> bool, xs: seq<T>) {
    forall i, j :: 0 <= i < j < |xs| ==> le(xs[i], xs[j])
  }

  lemma {:induction false} InsertKeepsRows<T>(le: (T, T) -> bool, x: T, ys: seq<T>)
    ensures multiset(InsertSorted(le, x, ys)) == multiset{x} + multiset(ys)
  {
    if ys != [] {
      assert ys == [ys[0]] + ys[1..];
      if !le(x, ys[0]) {
        InsertKeepsRows(le, x, ys[1..]);
      }
    }
  }

  lemma {:induction false} SortKeepsRows<T>(le: (T, T) -> bool, xs: seq<T>)
    ensures multiset(Sort(le, xs)) == multiset(xs)
  {
    if xs != [] {
      SortKeepsRows(le, xs[1..]);
      InsertKeepsRows(le, xs[0], Sort(le, xs[1..]));
      assert xs == [xs[0]] + xs[1..];
    }
  }

  lemma {:induction false} InsertIsSorted<T(!new)>(le: (T, T) -> bool, x: T, ys: seq<T>)
    requires TotalPreorder(le) && Sorted(le, ys)
    ensures Sorted(le, InsertSorted(le, x, ys))
  {
    if ys != [] && !le(x, ys[0]) {
      InsertIsSorted(le, x, ys[1..]);
      InsertKeepsRows(le, x, ys[1..]);
      var rest := InsertSorted(le, x, ys[1..]);
      forall j | 0 <= j < |rest| ensures le(ys[0], rest[j]) {
        assert rest[j] in multiset(rest);
        if rest[j] != x {
          assert rest[j] in ys[1..];
        }
      }
    }
  }

  lemma {:induction false} SortIsSorted<T(!new)>(le: (T, T) -> bool, xs: seq<T>)
    requires TotalPreorder(le)
    ensures Sorted(le, Sort(le, xs))
  {
    if xs != [] {
      SortIsSorted(le, xs[1..]);
      InsertIsSorted(le, xs[0], Sort(le, xs[1..]));
    }
  }

  lemma {:induction false} FilterInsert<T(!new)>(le: (T, T) -> bool, p: T -> bool, x: T, ys: seq<T>)
    requires TotalPreorder(le) && Sorted(le, ys)
    ensures Filter(p, InsertSorted(le, x, ys))
            == if p(x) then InsertSorted(le, x, Filter(p, ys)) else Filter(p, ys)
  {
    if ys == [] {
    } else if le(x, ys[0]) {
      FilterCons(p, x, ys);
      FilterMembers(p, ys);
      InsertFirst(le, x, Filter(p, ys));
    } else {
      FilterInsert(le, p, x, ys[1..]);
      FilterCons(p, ys[0], InsertSorted(le, x, ys[1..]));
      FilterHead(p, ys);
      InsertCons(le, x, ys[0], Filter(p, ys[1..]));
    }
  }

  lemma InsertCons<T>(le: (T, T) -> bool, x: T, y: T, ys: seq<T>)
    ensures InsertSorted(le, x, [y] + ys) == if le(x, y) then [x] + ([y] + ys) else [y] + InsertSorted(le, x, ys)
  {
    assert ([y] + ys)[1..] == ys;
  }

  lemma SortCons<T>(le: (T, T) -> bool, x: T, xs: seq<T>)
    ensures Sort(le, [x] + xs) == InsertSorted(le, x, Sort(le, xs))
  {
    assert ([x] + xs)[1..] == xs;
  }

  lemma InsertFirst<T>(le: (T, T) -> bool, x: T, ys: seq<T>)
    requires forall y :: y in ys ==> le(x, y)
    ensures InsertSorted(le, x, ys) == [x] + ys
  {
    if ys != [] {
      assert ys[0] in ys;
    }
  }

  /** A stable sort commutes with any filter: a WHERE clause may come before or
      after the ORDER BY. */
  lemma {:induction false} FilterSort<T(!new)>(le: (T, T) -> bool, p: T -> bool, xs: seq<T>)
    requires TotalPreorder(le)
    ensures Filter(p, Sort(le, xs)) == Sort(le, Filter(p, xs))
  {
    if xs != [] {
      FilterSort(le, p, xs[1..]);
      SortIsSorted(le, xs[1..]);
      FilterInsert(le, p, xs[0], Sort(le, xs[1..]));
      FilterHead(p, xs);
      SortCons(le, xs[0], Filter(p, xs[1..]));
    }
  }

  // ---- Rearranging ----

  function Without<T>(xs: seq<T>, k: nat): (ys: seq<T>)
    requires k < |xs|
    ensures |ys| == |xs| - 1
    ensures forall i :: 0 <= i < |ys| ==> ys[i] == if i < k then xs[i] else xs[i + 1]
  {
    xs[..k] + xs[k + 1..]
  }

  lemma RemoveAt<T>(xs: seq<T>, k: nat)
    requires k < |xs|
    ensures multiset(Without(xs, k)) == multiset(xs) - multiset{xs[k]}
    ensures multiset(xs) == multiset{xs[k]} + multiset(Without(xs, k))
  {
    assert xs == xs[..k] + [xs[k]] + xs[k + 1..];
  }

  lemma PlaceOf<T>(x: T, xs: seq<T>) returns (k: nat)
    requires x in multiset(xs)
    ensures k < |xs| && xs[k] == x
  {
    k :| 0 <= k < |xs| && xs[k] == x;
  }

  /** Two elements of a rearrangement stand at two places of the original. */
  lemma TwoPlaces<T>(xs: seq<T>, ys: seq<T>, i: nat, j: nat) returns (k: nat, n: nat)
    requires multiset(xs) == multiset(ys) && i < j < |ys|
    ensures k < |xs| && n < |xs| && k != n && xs[k] == ys[i] && xs[n] == ys[j]
  {
    assert ys[i] in multiset(ys);
    k := PlaceOf(ys[i], xs);
    RemoveAt(xs, k);
    RemoveAt(ys, i);
    assert Without(ys, i)[j - 1] in multiset(Without(ys, i));
    var m := PlaceOf(ys[j], Without(xs, k));
    n := if m < k then m else m + 1;
  }

  /** Side by side somewhere in the two sequences. */
  ghost predicate Paired<T, U>(x: T, u: U, xs: seq<T>, us: seq<U>)
    requires |xs| == |us|
  {
    exists k :: 0 <= k < |xs| && xs[k] == x && us[k] == u
  }

  lemma PairedInMore<T, U>(x: T, u: U, xs: seq<T>, us: seq<U>, k: nat)
    requires |xs| == |us| && k < |xs| && Paired(x, u, Without(xs, k), Without(us, k))
    ensures Paired(x, u, xs, us)
  {
    var i :| 0 <= i < |xs| - 1 && Without(xs, k)[i] == x && Without(us, k)[i] == u;
    var j := if i < k then i else i + 1;
    assert xs[j] == x && us[j] == u;
  }

  lemma SameWithout<T>(xs: seq<T>, ys: seq<T>, k: nat)
    requires multiset(xs) == multiset(ys) && xs != [] && k < |ys| && ys[k] == xs[0]
    ensures multiset(Without(xs, 0)) == multiset(Without(ys, k))
  {
    RemoveAt(xs, 0);
    RemoveAt(ys, k);
  }

  lemma PutFirst<T>(xs: seq<T>, ys: seq<T>, k: nat)
    requires k < |ys| && multiset(xs) == multiset(Without(ys, k))
    ensures multiset([ys[k]] + xs) == multiset(ys)
  {
    RemoveAt(ys, k);
  }

  /** What goes with the elements of a sequence can be put in the order of a rearrangement. */
  lemma {:induction false} Reordered<T, U>(mine: seq<T>, xs: seq<T>, us: seq<U>) returns (vs: seq<U>)
    requires |xs| == |us| && multiset(mine) == multiset(xs)
    ensures |vs| == |mine| && multiset(vs) == multiset(us)
    ensures forall i :: 0 <= i < |mine| ==> Paired(mine[i], vs[i], xs, us)
    decreases |mine|
  {
    if mine == [] {
      assert |xs| == |multiset(xs)| == 0;
      vs := [];
    } else {
      assert mine[0] in multiset(mine);
      var k := PlaceOf(mine[0], xs);
      SameWithout(mine, xs, k);
      var rest := Reordered(Without(mine, 0), Without(xs, k), Without(us, k));
      PutFirst(rest, us, k);
      vs := [us[k]] + rest;
      PairsPut(mine, rest, xs, us, k);
    }
  }

  lemma PairsPut<T, U>(mine: seq<T>, rest: seq<U>, xs: seq<T>, us: seq<U>, k: nat)
    requires |xs| == |us| && k < |xs| && |mine| == |rest| + 1 && mine[0] == xs[k]
    requires forall i :: 0 <= i < |rest| ==> Paired(Without(mine, 0)[i], rest[i], Without(xs, k), Without(us, k))
    ensures forall i :: 0 <= i < |mine| ==> Paired(mine[i], ([us[k]] + rest)[i], xs, us)
  {
    forall i | 0 <= i < |mine| ensures Paired(mine[i], ([us[k]] + rest)[i], xs, us) {
      if i > 0 {
        assert Paired(Without(mine, 0)[i - 1], rest[i - 1], Without(xs, k), Without(us, k));
        PairedInMore(mine[i], rest[i - 1], xs, us, k);
      }
    }
  }

  // ---- Grouping by a key ----

  function HasKey<T, K(==)>(key: T -> K, k: K): T -> bool {
    (x: T) => key(x) == k
  }

  function LacksKey<T, K(==)>(key: T -> K, k: K): T -> bool {
    (x: T) => key(x) != k
  }

  predicate NoRepeats<K(==)>(ks: seq<K>) {
    forall i, j :: 0 <= i < j < |ks| ==> ks[i] != ks[j]
  }

  /** Sum of the sizes of the groups of the listed keys. */
  function GroupSizes<T, K(==)>(key: T -> K, ks: seq<K>, xs: seq<T>): nat {
    if ks == [] then 0 else |Filter(HasKey(key, ks[0]), xs)| + GroupSizes(key, ks[1..], xs)
  }

  lemma {:induction false} FilterSplits<T, K>(key: T -> K, k: K, xs: seq<T>)
    ensures |xs| == |Filter(HasKey(key, k), xs)| + |Filter(LacksKey(key, k), xs)|
  {
    if xs != [] {
      FilterSplits(key, k, xs[1..]);
    }
  }

  lemma {:induction false} GroupSizesWithout<T, K>(key: T -> K, k: K, ks: seq<K>, xs: seq<T>)
    requires k !in ks
    ensures GroupSizes(key, ks, Filter(LacksKey(key, k), xs)) == GroupSizes(key, ks, xs)
  {
    if ks != [] {
      GroupSizesWithout(key, k, ks[1..], xs);
      FilterTwice(key, k, ks[0], xs);
    }
  }

  lemma {:induction false} FilterTwice<T, K>(key: T -> K, k: K, other: K, xs: seq<T>)
    requires k != other
    ensures Filter(HasKey(key, other), Filter(LacksKey(key, k), xs)) == Filter(HasKey(key, other), xs)
  {
    if xs != [] {
      FilterTwice(key, k, other, xs[1..]);
      var head := if key(xs[0]) != k then [xs[0]] else [];
      FilterAppend(HasKey(key, other), head, Filter(LacksKey(key, k), xs[1..]));
    }
  }

  /** Groups under distinct keys that cover all rows add up to all rows. */
  lemma {:induction false} GroupSizesAddUp<T(!new), K>(key: T -> K, ks: seq<K>, xs: seq<T>)
    requires NoRepeats(ks)
    requires forall x :: x in xs ==> key(x) in ks
    ensures GroupSizes(key, ks, xs) == |xs|
    decreases |ks|
  {
    assert xs != [] ==> xs[0] in xs;
    if ks != [] {
      var others := Filter(LacksKey(key, ks[0]), xs);
      FilterMembers(LacksKey(key, ks[0]), xs);
      forall x | x in others ensures key(x) in ks[1..] {
        var i :| 0 <= i < |ks| && ks[i] == key(x);
        assert ks[1..][i - 1] == key(x);
      }
      GroupSizesAddUp(key, ks[1..], others);
      GroupSizesWithout(key, ks[0], ks[1..], xs);
      FilterSplits(key, ks[0], xs);
    }
  }

  // ---- HashMap entries grown by a loop over rows ----

  function GroupOf<K(==), V>(groups: map<K, seq<V>>, k: K): seq<V> {
    if k in groups then groups[k] else []
  }

  /** `groups.entry(k).or_default().push(v)` */
  function Pushed<K(==), V>(groups: map<K, seq<V>>, k: K, v: V): map<K, seq<V>> {
    groups[k := GroupOf(groups, k) + [v]]
  }

  ghost predicate GroupIs<T, K, V>(groups: map<K, seq<V>>, f: T -> V, key: T -> K, rows: seq<T>, k: K) {
    && GroupOf(groups, k) == MapSeq(f, Filter(HasKey(key, k), rows))
    && (k in groups <==> GroupOf(groups, k) != [])
  }

  /** Every group holds, in order, the images of the rows with its key; keys without
      rows are absent. */
  ghost predicate Grouped<T, K(!new), V>(groups: map<K, seq<V>>, f: T -> V, key: T -> K, rows: seq<T>) {
    forall k :: GroupIs(groups, f, key, rows, k)
  }

  lemma PushGrouped<T, K(!new), V>(groups: map<K, seq<V>>, f: T -> V, key: T -> K, rows: seq<T>, i: nat)
    requires i < |rows| && Grouped(groups, f, key, rows[..i])
    ensures Grouped(Pushed(groups, key(rows[i]), f(rows[i])), f, key, rows[..i + 1])
  {
    var after := Pushed(groups, key(rows[i]), f(rows[i]));
    assert rows[..i + 1] == rows[..i] + [rows[i]];
    forall k ensures GroupIs(after, f, key, rows[..i] + [rows[i]], k) {
      assert GroupIs(groups, f, key, rows[..i], k);
      var p := HasKey(key, k);
      FilterAppend(p, rows[..i], [rows[i]]);
      FilterCons(p, rows[i], []);
      assert [rows[i]] + [] == [rows[i]];
    }
  }
}
