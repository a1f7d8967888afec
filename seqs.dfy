/** Generic list operations with Python's meaning: concatenation, sums,
    slicing `xs[:k]`, first-occurrence de-duplication through a `seen` set,
    and the stable `sorted`/`list.sort`. */
module Seqs {
  import opened Wrappers

  /** All the lists of `xss`, one after another. */
  function Flatten<T>(xss: seq<seq<T>>): seq<T> {
    if xss == [] then [] else Flatten(xss[..|xss| - 1]) + xss[|xss| - 1]
  }

  lemma {:induction false} FlattenCons<T>(xs: seq<T>, xss: seq<seq<T>>)
    ensures Flatten([xs] + xss) == xs + Flatten(xss)
    decreases |xss|
  {
    if xss == [] {
      assert [xs] + xss == [xs];
      assert Flatten([xs]) == Flatten([]) + xs;
    } else {
      var init := xss[..|xss| - 1];
      assert ([xs] + xss)[..|[xs] + xss| - 1] == [xs] + init;
      FlattenCons(xs, init);
    }
  }

  lemma HeadIn<T>(xs: seq<T>)
    ensures xs != [] ==> xs[0] in xs
  {
  }

  /** The lists `f(x)` for the elements of `xs`, one after another. */
  function FlatMap<A, B>(xs: seq<A>, f: A -> seq<B>): seq<B> {
    if xs == [] then [] else FlatMap(xs[..|xs| - 1], f) + f(xs[|xs| - 1])
  }

  lemma {:induction false} FlatMapAppend<A, B>(xs: seq<A>, ys: seq<A>, f: A -> seq<B>)
    ensures FlatMap(xs + ys, f) == FlatMap(xs, f) + FlatMap(ys, f)
    decreases |ys|
  {
    if ys == [] {
      assert xs + ys == xs;
    } else {
      assert (xs + ys)[..|xs + ys| - 1] == xs + ys[..|ys| - 1];
      FlatMapAppend(xs, ys[..|ys| - 1], f);
    }
  }

  lemma FlatMapOne<A, B>(x: A, f: A -> seq<B>)
    ensures FlatMap([x], f) == f(x)
  {
    assert [x][..0] == [];
  }

  /** One more element of a prefix adds its list: the step of a loop that
      extends a result by `f(xs[i])`. */
  lemma FlatMapPrefix<A, B>(xs: seq<A>, f: A -> seq<B>, i: nat)
    requires i < |xs|
    ensures FlatMap(xs[..i + 1], f) == FlatMap(xs[..i], f) + f(xs[i])
  {
    assert xs[..i + 1][..i] == xs[..i];
  }

  lemma FlatMapWhole<A, B>(xs: seq<A>, f: A -> seq<B>)
    ensures FlatMap(xs[..|xs|], f) == FlatMap(xs, f)
  {
    assert xs[..|xs|] == xs;
  }

  /** An element of the concatenation comes from the list of some element. */
  lemma {:induction false} FlatMapMember<A, B>(xs: seq<A>, f: A -> seq<B>, y: B)
    ensures y in FlatMap(xs, f) <==> exists i :: 0 <= i < |xs| && y in f(xs[i])
  {
    if xs != [] {
      var init := xs[..|xs| - 1];
      FlatMapMember(init, f, y);
      assert forall i :: 0 <= i < |init| ==> init[i] == xs[i];
      if y in FlatMap(xs, f) && y !in f(xs[|xs| - 1]) {
        var i :| 0 <= i < |init| && y in f(init[i]);
        assert y in f(xs[i]);
      }
    }
  }

  /** When every `f(x)` is contained in `g(x)`, so is the concatenation. */
  lemma FlatMapMono<A, B>(xs: seq<A>, f: A -> seq<B>, g: A -> seq<B>)
    requires forall i, y :: 0 <= i < |xs| && y in f(xs[i]) ==> y in g(xs[i])
    ensures forall y :: y in FlatMap(xs, f) ==> y in FlatMap(xs, g)
  {
    forall y | y in FlatMap(xs, f) ensures y in FlatMap(xs, g) {
      FlatMapMember(xs, f, y);
      FlatMapMember(xs, g, y);
    }
  }

  /** Lists of at most one element concatenate to no more than `|xs|`. */
  lemma {:induction false} FlatMapBound<A, B>(xs: seq<A>, f: A -> seq<B>)
    requires forall i :: 0 <= i < |xs| ==> |f(xs[i])| <= 1
    ensures |FlatMap(xs, f)| <= |xs|
  {
    if xs != [] {
      var init := xs[..|xs| - 1];
      assert forall i :: 0 <= i < |init| ==> init[i] == xs[i];
      FlatMapBound(init, f);
    }
  }

  /** `[f(x) for x in xs]`. */
  function Map<A, B>(xs: seq<A>, f: A -> B): (r: seq<B>)
    ensures |r| == |xs|
  {
    seq(|xs|, i requires 0 <= i < |xs| => f(xs[i]))
  }

  lemma MapAppend<A, B>(xs: seq<A>, ys: seq<A>, f: A -> B)
    ensures Map(xs + ys, f) == Map(xs, f) + Map(ys, f)
  {
  }

  /** Mapping two arrangements of the same elements gives two arrangements
      of the same images. */
  lemma {:induction false} MapPerm<A, B>(xs: seq<A>, ys: seq<A>, f: A -> B)
    requires multiset(xs) == multiset(ys)
    ensures multiset(Map(xs, f)) == multiset(Map(ys, f))
    decreases |xs|
  {
    if xs == [] {
      assert |ys| == |multiset(ys)| == 0;
    } else {
      var init, x := xs[..|xs| - 1], xs[|xs| - 1];
      var k := PermLast(xs, ys);
      MapPerm(init, ys[..k] + ys[k + 1..], f);
      assert xs == init + [x];
      MapAppend(init, [x], f);
      MapAppend(ys[..k] + [x], ys[k + 1..], f);
      MapAppend(ys[..k], [x], f);
      MapAppend(ys[..k], ys[k + 1..], f);
    }
  }

  function Sum(xs: seq<int>): int {
    if xs == [] then 0 else Sum(xs[..|xs| - 1]) + xs[|xs| - 1]
  }

  lemma {:induction false} SumAppend(xs: seq<int>, ys: seq<int>)
    ensures Sum(xs + ys) == Sum(xs) + Sum(ys)
    decreases |ys|
  {
    if ys == [] {
      assert xs + ys == xs;
    } else {
      assert (xs + ys)[..|xs + ys| - 1] == xs + ys[..|ys| - 1];
      SumAppend(xs, ys[..|ys| - 1]);
    }
  }

  /** Python's `xs[:k]` for any integer `k`: a negative `k` drops the last `-k`
      elements. */
  function PyTake<T>(xs: seq<T>, k: int): (r: seq<T>)
    ensures |r| <= |xs| && r == xs[..|r|]
    ensures 0 <= k ==> |r| == (if k <= |xs| then k else |xs|)
    ensures k < 0 ==> |r| == (if -k <= |xs| then |xs| + k else 0)
  {
    if k >= 0 then (if k <= |xs| then xs[..k] else xs)
    else if -k <= |xs| then xs[..|xs| + k]
    else []
  }

  /** `if limit: xs = xs[:limit]` — only a present, non-zero limit truncates. */
  function TruncateIfSet<T>(xs: seq<T>, limit: Option<int>): (r: seq<T>)
    ensures (limit.None? || limit == Some(0)) ==> r == xs
    ensures limit.Some? && limit.value > 0 ==>
      |r| == (if limit.value <= |xs| then limit.value else |xs|) && r == xs[..|r|]
  {
    if limit.Some? && limit.value != 0 then PyTake(xs, limit.value) else xs
  }

  /** `dict(table).get(k, default)` for a table whose keys are distinct:
      the value of the first entry for `k`, or `default`. */
  function Lookup<K(==), V>(table: seq<(K, V)>, k: K, default: V): V {
    LookupFrom(table, k, default, 0)
  }

  /** The search from entry `i` on. */
  function LookupFrom<K(==), V>(table: seq<(K, V)>, k: K, default: V, i: nat): V
    decreases |table| - i
  {
    if i >= |table| then default
    else if table[i].0 == k then table[i].1
    else LookupFrom(table, k, default, i + 1)
  }

  lemma {:induction false} LookupFromSpec<K, V>(table: seq<(K, V)>, k: K, default: V, i: nat)
    ensures (forall j :: i <= j < |table| ==> table[j].0 != k) ==> LookupFrom(table, k, default, i) == default
    ensures forall j :: i <= j < |table| && table[j].0 == k && (forall l :: i <= l < j ==> table[l].0 != k) ==>
      LookupFrom(table, k, default, i) == table[j].1
    decreases |table| - i
  {
    if i < |table| && table[i].0 != k {
      LookupFromSpec(table, k, default, i + 1);
    }
  }

  /** A key the table lacks gives the default; otherwise the value of its
      first entry. */
  lemma LookupSpec<K, V>(table: seq<(K, V)>, k: K, default: V)
    ensures (forall i :: 0 <= i < |table| ==> table[i].0 != k) ==> Lookup(table, k, default) == default
    ensures forall i :: 0 <= i < |table| && table[i].0 == k && (forall j :: 0 <= j < i ==> table[j].0 != k) ==>
      Lookup(table, k, default) == table[i].1
  {
    LookupFromSpec(table, k, default, 0);
  }

  // ---------------------------------------------------------------------
  // First-occurrence de-duplication

  /** The keys met in `xs`. */
  function KeysOf<T, K(==)>(xs: seq<T>, key: T -> K): set<K> {
    set i | 0 <= i < |xs| :: key(xs[i])
  }

  lemma {:induction false} KeysOfBound<T, K>(xs: seq<T>, key: T -> K)
    ensures |KeysOf(xs, key)| <= |xs|
  {
    if xs != [] {
      var init := xs[..|xs| - 1];
      assert xs == init + [xs[|xs| - 1]];
      KeysOfBound(init, key);
      KeysOfSnoc(init, xs[|xs| - 1], key);
    }
  }

  lemma KeysOfAppend<T, K>(xs: seq<T>, ys: seq<T>, key: T -> K)
    ensures KeysOf(xs + ys, key) == KeysOf(xs, key) + KeysOf(ys, key)
  {
    var zs := xs + ys;
    assert forall i | 0 <= i < |xs| :: zs[i] == xs[i];
    assert forall i | 0 <= i < |ys| :: zs[|xs| + i] == ys[i];
    forall k | k in KeysOf(zs, key) ensures k in KeysOf(xs, key) + KeysOf(ys, key) {
      var i :| 0 <= i < |zs| && key(zs[i]) == k;
      if i >= |xs| { assert key(ys[i - |xs|]) == k; }
    }
  }

  /** Keep each element whose key did not occur earlier: the loop
      `if key(x) not in seen: seen.add(key(x)); out.append(x)`. */
  function DedupBy<T, K(==)>(xs: seq<T>, key: T -> K): seq<T> {
    if xs == [] then []
    else
      var init, x := xs[..|xs| - 1], xs[|xs| - 1];
      if key(x) in KeysOf(init, key) then DedupBy(init, key) else DedupBy(init, key) + [x]
  }

  /** The first element of `xs` whose key is `k`, if any. */
  function FirstWithKey<T, K(==)>(xs: seq<T>, key: T -> K, k: K): Option<T> {
    if xs == [] then None
    else if key(xs[0]) == k then Some(xs[0])
    else FirstWithKey(xs[1..], key, k)
  }

  lemma KeysOfSnoc<T, K>(xs: seq<T>, x: T, key: T -> K)
    ensures KeysOf(xs + [x], key) == KeysOf(xs, key) + {key(x)}
  {
    var ys := xs + [x];
    assert forall i | 0 <= i < |xs| :: ys[i] == xs[i];
    assert ys[|xs|] == x;
  }

  lemma FirstWithKeySnoc<T, K>(xs: seq<T>, x: T, key: T -> K, k: K)
    ensures FirstWithKey(xs + [x], key, k) ==
      if k in KeysOf(xs, key) then FirstWithKey(xs, key, k)
      else if key(x) == k then Some(x) else None
  {
    if xs == [] {
      assert xs + [x] == [x];
    } else {
      assert (xs + [x])[1..] == xs[1..] + [x];
      FirstWithKeySnoc(xs[1..], x, key, k);
      assert k in KeysOf(xs, key) <==> key(xs[0]) == k || k in KeysOf(xs[1..], key) by {
        assert forall i | 1 <= i < |xs| :: xs[i] == xs[1..][i - 1];
        assert forall i | 0 <= i < |xs| - 1 :: xs[1..][i] == xs[i + 1];
      }
    }
  }

  lemma FirstWithKeyNone<T, K>(xs: seq<T>, key: T -> K, k: K)
    requires k !in KeysOf(xs, key)
    ensures FirstWithKey(xs, key, k) == None
  {
    if xs != [] {
      assert key(xs[0]) in KeysOf(xs, key);
      assert KeysOf(xs[1..], key) <= KeysOf(xs, key) by {
        assert forall i | 0 <= i < |xs| - 1 :: xs[1..][i] == xs[i + 1];
      }
      FirstWithKeyNone(xs[1..], key, k);
    }
  }

  /** De-duplication keeps exactly the keys met, each once, and for every key
      the element kept is the first one with that key. */
  lemma {:induction false} DedupBySpec<T, K>(xs: seq<T>, key: T -> K)
    ensures KeysOf(DedupBy(xs, key), key) == KeysOf(xs, key)
    ensures forall i, j :: 0 <= i < j < |DedupBy(xs, key)| ==>
      key(DedupBy(xs, key)[i]) != key(DedupBy(xs, key)[j])
    ensures forall i :: 0 <= i < |DedupBy(xs, key)| ==>
      FirstWithKey(xs, key, key(DedupBy(xs, key)[i])) == Some(DedupBy(xs, key)[i])
    ensures |DedupBy(xs, key)| <= |xs|
  {
    if xs != [] {
      var init, x := xs[..|xs| - 1], xs[|xs| - 1];
      assert xs == init + [x];
      DedupBySpec(init, key);
      KeysOfSnoc(init, x, key);
      var p := DedupBy(init, key);
      forall i | 0 <= i < |p|
        ensures FirstWithKey(xs, key, key(p[i])) == Some(p[i])
      {
        assert key(p[i]) in KeysOf(p, key);
        FirstWithKeySnoc(init, x, key, key(p[i]));
      }
      if key(x) !in KeysOf(init, key) {
        KeysOfSnoc(p, x, key);
        FirstWithKeySnoc(init, x, key, key(x));
        FirstWithKeyNone(init, key, key(x));
        var r := p + [x];
        forall i, j | 0 <= i < j < |r| ensures key(r[i]) != key(r[j]) {
          if j == |p| {
            assert key(r[i]) in KeysOf(p, key);
          }
        }
      }
    }
  }

  lemma DedupBySnoc<T, K>(xs: seq<T>, x: T, key: T -> K)
    ensures DedupBy(xs + [x], key) ==
      if key(x) in KeysOf(xs, key) then DedupBy(xs, key) else DedupBy(xs, key) + [x]
  {
    assert (xs + [x])[..|xs|] == xs;
  }

  /** De-duplication only drops elements. */
  lemma {:induction false} DedupByMember<T, K>(xs: seq<T>, key: T -> K)
    ensures forall x :: x in DedupBy(xs, key) ==> x in xs
  {
    if xs != [] {
      var init := xs[..|xs| - 1];
      assert xs == init + [xs[|xs| - 1]];
      DedupByMember(init, key);
    }
  }

  /** A list whose keys are already distinct is left as it is. */
  lemma {:induction false} DedupByDistinct<T, K>(xs: seq<T>, key: T -> K)
    requires forall i, j :: 0 <= i < j < |xs| ==> key(xs[i]) != key(xs[j])
    ensures DedupBy(xs, key) == xs
  {
    if xs != [] {
      var init, x := xs[..|xs| - 1], xs[|xs| - 1];
      DedupByDistinct(init, key);
      assert key(x) !in KeysOf(init, key);
      assert xs == init + [x];
    }
  }

  /** No two elements share a key. */
  predicate DistinctKeys<T, K(==)>(xs: seq<T>, key: T -> K) {
    forall i, j :: 0 <= i < j < |xs| ==> key(xs[i]) != key(xs[j])
  }

  lemma {:induction false} DistinctOccursOnce<T, K>(xs: seq<T>, key: T -> K, x: T)
    requires DistinctKeys(xs, key)
    ensures multiset(xs)[x] <= 1
  {
    if xs != [] {
      var init, l := xs[..|xs| - 1], xs[|xs| - 1];
      assert xs == init + [l];
      assert DistinctKeys(init, key);
      DistinctOccursOnce(init, key, x);
    }
  }

  /** A new key keeps keys distinct. */
  lemma DistinctKeysSnoc<T, K>(xs: seq<T>, x: T, key: T -> K)
    requires DistinctKeys(xs, key)
    requires forall i :: 0 <= i < |xs| ==> key(xs[i]) != key(x)
    ensures DistinctKeys(xs + [x], key)
  {
    forall i, j | 0 <= i < j < |xs| + 1 ensures key((xs + [x])[i]) != key((xs + [x])[j]) {
      if j == |xs| { assert (xs + [x])[j] == x; assert (xs + [x])[i] == xs[i]; }
    }
  }

  /** Reordering keeps keys distinct. */
  lemma DistinctKeysPerm<T, K>(xs: seq<T>, ys: seq<T>, key: T -> K)
    requires multiset(xs) == multiset(ys) && DistinctKeys(xs, key)
    ensures DistinctKeys(ys, key)
  {
    forall i, j | 0 <= i < j < |ys| ensures key(ys[i]) != key(ys[j]) {
      var a, b := ys[i], ys[j];
      assert a in multiset(xs) && b in multiset(xs);
      if a == b {
        assert ys == ys[..j] + ys[j..];
        assert a in ys[..j] && a in ys[j..];
        assert multiset(ys)[a] == multiset(ys[..j])[a] + multiset(ys[j..])[a];
        DistinctOccursOnce(xs, key, a);
      } else {
        var p :| 0 <= p < |xs| && xs[p] == a;
        var q :| 0 <= q < |xs| && xs[q] == b;
        assert p != q;
        if p < q { assert key(xs[p]) != key(xs[q]); } else { assert key(xs[q]) != key(xs[p]); }
      }
    }
  }

  // ---------------------------------------------------------------------
  // Counting and permutations

  function CountWhere<T>(xs: seq<T>, p: T -> bool): nat {
    if xs == [] then 0 else CountWhere(xs[..|xs| - 1], p) + (if p(xs[|xs| - 1]) then 1 else 0)
  }

  lemma {:induction false} CountWhereAppend<T>(xs: seq<T>, ys: seq<T>, p: T -> bool)
    ensures CountWhere(xs + ys, p) == CountWhere(xs, p) + CountWhere(ys, p)
    decreases |ys|
  {
    if ys == [] {
      assert xs + ys == xs;
    } else {
      assert (xs + ys)[..|xs + ys| - 1] == xs + ys[..|ys| - 1];
      CountWhereAppend(xs, ys[..|ys| - 1], p);
    }
  }

  /** Two arrangements of the same elements: the last element of `xs`
      sits somewhere in `ys`, and what is left on both sides is again the
      same elements. */
  lemma PermLast<T>(xs: seq<T>, ys: seq<T>) returns (k: nat)
    requires xs != [] && multiset(xs) == multiset(ys)
    ensures k < |ys| && ys[k] == xs[|xs| - 1]
    ensures ys == ys[..k] + [ys[k]] + ys[k + 1..]
    ensures multiset(xs[..|xs| - 1]) == multiset(ys[..k] + ys[k + 1..])
  {
    var init, x := xs[..|xs| - 1], xs[|xs| - 1];
    assert xs == init + [x];
    assert x in multiset(ys);
    k :| 0 <= k < |ys| && ys[k] == x;
    assert ys == ys[..k] + [x] + ys[k + 1..];
    var rest := ys[..k] + ys[k + 1..];
    assert multiset(ys) == multiset(rest) + multiset{x} by {
      assert multiset(ys) == multiset(ys[..k]) + multiset([x]) + multiset(ys[k + 1..]);
    }
    assert multiset(init) == multiset(xs) - multiset{x};
  }

  /** Counting is independent of the order of the elements. */
  lemma {:induction false} CountWherePerm<T>(xs: seq<T>, ys: seq<T>, p: T -> bool)
    requires multiset(xs) == multiset(ys)
    ensures CountWhere(xs, p) == CountWhere(ys, p)
    decreases |xs|
  {
    if xs == [] {
      assert |ys| == |multiset(ys)| == 0;
    } else {
      var init, x := xs[..|xs| - 1], xs[|xs| - 1];
      var k := PermLast(xs, ys);
      CountWherePerm(init, ys[..k] + ys[k + 1..], p);
      CountWhereAppend(ys[..k] + [x], ys[k + 1..], p);
      CountWhereAppend(ys[..k], [x], p);
      CountWhereAppend(ys[..k], ys[k + 1..], p);
      assert [x][..0] == [];
    }
  }

  /** A count is at most the length. */
  lemma {:induction false} CountWhereBound<T>(xs: seq<T>, p: T -> bool)
    ensures CountWhere(xs, p) <= |xs|
  {
    if xs != [] {
      CountWhereBound(xs[..|xs| - 1], p);
    }
  }

  /** Counting what every element satisfies gives the length; what none
      satisfies, zero. */
  lemma {:induction false} CountWhereAllOrNone<T>(xs: seq<T>, p: T -> bool)
    ensures (forall i :: 0 <= i < |xs| ==> p(xs[i])) ==> CountWhere(xs, p) == |xs|
    ensures (forall i :: 0 <= i < |xs| ==> !p(xs[i])) ==> CountWhere(xs, p) == 0
  {
    if xs != [] {
      var init := xs[..|xs| - 1];
      assert forall i :: 0 <= i < |init| ==> init[i] == xs[i];
      CountWhereAllOrNone(init, p);
    }
  }

  /** The elements that satisfy `p`, in order: a list comprehension with a
      condition. */
  function Filter<T(!new)>(xs: seq<T>, p: T -> bool): (r: seq<T>)
    ensures forall x :: x in r <==> x in xs && p(x)
    ensures |r| <= |xs|
  {
    if xs == [] then []
    else
      var init, x := xs[..|xs| - 1], xs[|xs| - 1];
      assert xs == init + [x];
      Filter(init, p) + (if p(x) then [x] else [])
  }

  // ---------------------------------------------------------------------
  // Stable sorting under a total preorder

  /** Any two elements are comparable and the order is transitive: what
      `<=` on a sort key gives Python's `sort(key=...)`. */
  ghost predicate TotalPreorder<T(!new)>(le: (T, T) -> bool) {
    (forall a, b :: le(a, b) || le(b, a)) &&
    (forall a, b, c :: le(a, b) && le(b, c) ==> le(a, c))
  }

  predicate SortedBy<T>(xs: seq<T>, le: (T, T) -> bool) {
    forall i, j :: 0 <= i < j < |xs| ==> le(xs[i], xs[j])
  }

  /** Places `x` after every element of `xs` that is not greater than it. */
  function InsertBy<T>(x: T, xs: seq<T>, le: (T, T) -> bool): (r: seq<T>)
    ensures multiset(r) == multiset(xs) + multiset{x}
    ensures |r| == |xs| + 1
  {
    if xs == [] || le(xs[|xs| - 1], x) then xs + [x]
    else
      var init := xs[..|xs| - 1];
      assert xs == init + [xs[|xs| - 1]];
      InsertBy(x, init, le) + [xs[|xs| - 1]]
  }

  /** Python's stable `sorted(xs, key=...)` for the order `le`. */
  function SortBy<T>(xs: seq<T>, le: (T, T) -> bool): (r: seq<T>)
    ensures multiset(r) == multiset(xs)
    ensures |r| == |xs|
  {
    if xs == [] then []
    else
      assert xs == xs[..|xs| - 1] + [xs[|xs| - 1]];
      InsertBy(xs[|xs| - 1], SortBy(xs[..|xs| - 1], le), le)
  }

  lemma {:induction false} InsertBySorted<T(!new)>(x: T, xs: seq<T>, le: (T, T) -> bool)
    requires TotalPreorder(le) && SortedBy(xs, le)
    ensures SortedBy(InsertBy(x, xs, le), le)
  {
    if xs == [] || le(xs[|xs| - 1], x) {
      var r := xs + [x];
      forall i, j | 0 <= i < j < |r| ensures le(r[i], r[j]) {
        if j == |xs| && i < |xs| - 1 {
          assert le(xs[i], xs[|xs| - 1]);
        }
      }
    } else {
      var init, last := xs[..|xs| - 1], xs[|xs| - 1];
      assert xs == init + [last];
      InsertBySorted(x, init, le);
      var r0 := InsertBy(x, init, le);
      assert le(x, last);
      forall i | 0 <= i < |r0| ensures le(r0[i], last) {
        assert r0[i] in multiset(r0);
        if r0[i] != x {
          assert r0[i] in multiset(init);
          var k :| 0 <= k < |init| && init[k] == r0[i];
          assert xs[k] == init[k];
        }
      }
      var r := r0 + [last];
      forall i, j | 0 <= i < j < |r| ensures le(r[i], r[j]) {
        if j < |r0| {
          assert r[i] == r0[i] && r[j] == r0[j];
        }
      }
    }
  }

  /** The result of `SortBy` is ordered and a permutation of its input. */
  lemma {:induction false} SortBySorted<T(!new)>(xs: seq<T>, le: (T, T) -> bool)
    requires TotalPreorder(le)
    ensures SortedBy(SortBy(xs, le), le)
    ensures multiset(SortBy(xs, le)) == multiset(xs)
  {
    if xs != [] {
      SortBySorted(xs[..|xs| - 1], le);
      InsertBySorted(xs[|xs| - 1], SortBy(xs[..|xs| - 1], le), le);
    }
  }

  /** Two elements the order does not tell apart: `x` and `y` sort as
      equals. */
  function Tied<T>(le: (T, T) -> bool, x: T): T -> bool {
    (y: T) => le(x, y) && le(y, x)
  }

  lemma FilterSnoc<T(!new)>(xs: seq<T>, x: T, p: T -> bool)
    ensures Filter(xs + [x], p) == Filter(xs, p) + (if p(x) then [x] else [])
  {
    assert (xs + [x])[..|xs + [x]| - 1] == xs;
  }

  /** Elements in strictly decreasing order do not both sort as equals
      with one `z`. */
  lemma NotBothTied<T(!new)>(le: (T, T) -> bool, z: T, x: T, y: T)
    requires TotalPreorder(le)
    requires !le(y, x)
    ensures !(Tied(le, z)(x) && Tied(le, z)(y))
  {
  }

  /** Inserting `x` only passes over elements strictly greater than it, so
      for a `p` that never holds of both `x` and such an element, `x` comes
      after the elements of `p` already there. */
  lemma {:induction false} InsertByFilter<T(!new)>(x: T, xs: seq<T>, le: (T, T) -> bool, p: T -> bool)
    requires forall y :: !le(y, x) ==> !(p(x) && p(y))
    ensures Filter(InsertBy(x, xs, le), p) == Filter(xs, p) + (if p(x) then [x] else [])
  {
    if xs == [] || le(xs[|xs| - 1], x) {
      FilterSnoc(xs, x, p);
    } else {
      var init, y := xs[..|xs| - 1], xs[|xs| - 1];
      var ins := InsertBy(x, init, le);
      assert xs == init + [y];
      assert InsertBy(x, xs, le) == ins + [y];
      InsertByFilter(x, init, le, p);
      FilterSnoc(ins, y, p);
      FilterSnoc(init, y, p);
    }
  }

  /** Among the elements tied with any `z`, an inserted element comes after
      those already there. */
  lemma InsertByTied<T(!new)>(x: T, xs: seq<T>, le: (T, T) -> bool, z: T)
    requires TotalPreorder(le)
    ensures Filter(InsertBy(x, xs, le), Tied(le, z)) == Filter(xs, Tied(le, z)) + (if Tied(le, z)(x) then [x] else [])
  {
    forall y | !le(y, x) ensures !(Tied(le, z)(x) && Tied(le, z)(y)) {
      NotBothTied(le, z, x, y);
    }
    InsertByFilter(x, xs, le, Tied(le, z));
  }

  /** `SortBy` is stable: the elements that sort as equals keep the order
      they had in the input. */
  lemma {:induction false} SortByStable<T(!new)>(xs: seq<T>, le: (T, T) -> bool, z: T)
    requires TotalPreorder(le)
    ensures Filter(SortBy(xs, le), Tied(le, z)) == Filter(xs, Tied(le, z))
  {
    if xs != [] {
      var init, x := xs[..|xs| - 1], xs[|xs| - 1];
      assert xs == init + [x];
      SortByStable(init, le, z);
      InsertByTied(x, SortBy(init, le), le, z);
      FilterSnoc(init, x, Tied(le, z));
    }
  }

  // ---------------------------------------------------------------------
  // First-seen unique keys

  /** pandas' `unique()` of a column: the keys of the elements, each once,
      in the order they are first seen. */
  function UniqueKeys<T(!new), K(==,!new)>(xs: seq<T>, key: T -> K): (r: seq<K>)
    ensures forall c :: c in r <==> exists x :: x in xs && key(x) == c
    ensures forall i, j :: 0 <= i < j < |r| ==> r[i] != r[j]
  {
    if xs == [] then []
    else
      var init, x := xs[..|xs| - 1], xs[|xs| - 1];
      assert xs == init + [x];
      var u := UniqueKeys(init, key);
      if key(x) in u then u else u + [key(x)]
  }
}
