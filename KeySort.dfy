/** Python's stable `sorted(xs, key=...)` / `list.sort(key=...)` as an
    insertion sort over a key function and an order on keys, with the
    facts the model-selection scripts rely on: the result is a
    permutation, it is ordered by key, and its head is the first element
    of minimum key. */
module KeySort {

  /** `le` behaves like `<=` on keys: any two keys compare, and the order
      is transitive. */
  ghost predicate TotalPreorder<K(!new)>(le: (K, K) -> bool)
  {
    (forall a, b :: le(a, b) || le(b, a)) &&
    (forall a, b, c :: le(a, b) && le(b, c) ==> le(a, c))
  }

  ghost predicate SortedBy<T, K>(s: seq<T>, key: T -> K, le: (K, K) -> bool)
  {
    forall i, j :: 0 <= i < j < |s| ==> le(key(s[i]), key(s[j]))
  }

  /** Python's `<=` on integers. */
  function IntLe(a: int, b: int): bool { a <= b }

  /** The identity key, for sorting integers by themselves. */
  function IntId(x: int): int { x }

  lemma IntLeTotal()
    ensures TotalPreorder(IntLe)
  {
  }

  /** Places `x`, which came before every element of `ys`, in front of the
      first element whose key is not below its own. */
  function Insert<T, K>(x: T, ys: seq<T>, key: T -> K, le: (K, K) -> bool): (r: seq<T>)
    ensures |r| == |ys| + 1
  {
    if ys == [] then [x]
    else if le(key(x), key(ys[0])) then [x] + ys
    else [ys[0]] + Insert(x, ys[1..], key, le)
  }

  function SortBy<T, K>(xs: seq<T>, key: T -> K, le: (K, K) -> bool): (r: seq<T>)
    ensures |r| == |xs|
  {
    if xs == [] then [] else Insert(xs[0], SortBy(xs[1..], key, le), key, le)
  }

  lemma {:induction false} InsertPermutes<T, K>(x: T, ys: seq<T>, key: T -> K, le: (K, K) -> bool)
    ensures multiset(Insert(x, ys, key, le)) == multiset{x} + multiset(ys)
  {
    if ys != [] && !le(key(x), key(ys[0])) {
      InsertPermutes(x, ys[1..], key, le);
      assert ys == [ys[0]] + ys[1..];
    }
  }

  lemma {:induction false} SortByPermutes<T, K>(xs: seq<T>, key: T -> K, le: (K, K) -> bool)
    ensures multiset(SortBy(xs, key, le)) == multiset(xs)
  {
    if xs != [] {
      SortByPermutes(xs[1..], key, le);
      InsertPermutes(xs[0], SortBy(xs[1..], key, le), key, le);
      assert xs == [xs[0]] + xs[1..];
    }
  }

  lemma {:induction false} InsertSorted<T, K(!new)>(x: T, ys: seq<T>, key: T -> K, le: (K, K) -> bool)
    requires TotalPreorder(le)
    requires SortedBy(ys, key, le)
    ensures SortedBy(Insert(x, ys, key, le), key, le)
  {
    if ys != [] {
      var r := Insert(x, ys, key, le);
      if le(key(x), key(ys[0])) {
        forall i, j | 0 <= i < j < |r| ensures le(key(r[i]), key(r[j])) {
          if i == 0 {
            assert r[j] == ys[j - 1];
            if j > 1 {
              assert le(key(ys[0]), key(ys[j - 1]));
            }
          } else {
            assert r[i] == ys[i - 1] && r[j] == ys[j - 1];
          }
        }
      } else {
        var rest := Insert(x, ys[1..], key, le);
        InsertSorted(x, ys[1..], key, le);
        InsertPermutes(x, ys[1..], key, le);
        assert le(key(ys[0]), key(x));
        forall i, j | 0 <= i < j < |r| ensures le(key(r[i]), key(r[j])) {
          if i == 0 {
            assert r[j] == rest[j - 1];
            assert rest[j - 1] in multiset(rest);
            if rest[j - 1] != x {
              assert rest[j - 1] in multiset(ys[1..]);
              var k :| 0 <= k < |ys[1..]| && ys[1..][k] == rest[j - 1];
              assert ys[k + 1] == rest[j - 1];
            }
          } else {
            assert r[i] == rest[i - 1] && r[j] == rest[j - 1];
          }
        }
      }
    }
  }

  lemma {:induction false} SortBySorted<T, K(!new)>(xs: seq<T>, key: T -> K, le: (K, K) -> bool)
    requires TotalPreorder(le)
    ensures SortedBy(SortBy(xs, key, le), key, le)
  {
    if xs != [] {
      SortBySorted(xs[1..], key, le);
      InsertSorted(xs[0], SortBy(xs[1..], key, le), key, le);
    }
  }

  /** The elements of `s` whose key ties with `k` (each is `le` the other),
      in their order in `s`. */
  function TiedWith<T, K>(s: seq<T>, key: T -> K, le: (K, K) -> bool, k: K): seq<T>
  {
    if s == [] then []
    else (if le(key(s[0]), k) && le(k, key(s[0])) then [s[0]] else []) + TiedWith(s[1..], key, le, k)
  }

  /** Inserting `x` moves it only past elements of strictly smaller key,
      none of which ties with `x`, so every class of tied keys keeps its
      order, with `x` first among its ties. */
  lemma {:induction false} InsertStable<T, K(!new)>(x: T, ys: seq<T>, key: T -> K, le: (K, K) -> bool, k: K)
    requires TotalPreorder(le)
    ensures TiedWith(Insert(x, ys, key, le), key, le, k) == TiedWith([x] + ys, key, le, k)
  {
    if ys != [] && !le(key(x), key(ys[0])) {
      var rest := Insert(x, ys[1..], key, le);
      InsertStable(x, ys[1..], key, le, k);
      assert Insert(x, ys, key, le) == [ys[0]] + rest;
      assert ([ys[0]] + rest)[1..] == rest;
      assert ([x] + ys)[1..] == ys;
      assert ys == [ys[0]] + ys[1..];
      assert ([x] + ys[1..])[1..] == ys[1..];
      assert !(le(key(x), k) && le(k, key(x)) && le(key(ys[0]), k) && le(k, key(ys[0])));
    }
  }

  /** Stability: within every class of tied keys the sorted sequence keeps
      the original order, as Python's `sorted` does. */
  lemma {:induction false} SortByStable<T, K(!new)>(xs: seq<T>, key: T -> K, le: (K, K) -> bool, k: K)
    requires TotalPreorder(le)
    ensures TiedWith(SortBy(xs, key, le), key, le, k) == TiedWith(xs, key, le, k)
  {
    if xs != [] {
      SortByStable(xs[1..], key, le, k);
      InsertStable(xs[0], SortBy(xs[1..], key, le), key, le, k);
      assert ([xs[0]] + SortBy(xs[1..], key, le))[1..] == SortBy(xs[1..], key, le);
    }
  }

  /** The first element, in the original order, whose key is minimal: the
      element a stable sort puts first. */
  function FirstMin<T, K>(xs: seq<T>, key: T -> K, le: (K, K) -> bool): T
    requires xs != []
  {
    if |xs| == 1 then xs[0]
    else
      var m := FirstMin(xs[1..], key, le);
      if le(key(xs[0]), key(m)) then xs[0] else m
  }

  lemma {:induction false} FirstMinIsMinimum<T, K(!new)>(xs: seq<T>, key: T -> K, le: (K, K) -> bool)
    requires xs != []
    requires TotalPreorder(le)
    ensures FirstMin(xs, key, le) in xs
    ensures forall i :: 0 <= i < |xs| ==> le(key(FirstMin(xs, key, le)), key(xs[i]))
  {
    if |xs| > 1 {
      var m := FirstMin(xs[1..], key, le);
      FirstMinIsMinimum(xs[1..], key, le);
      forall i | 0 <= i < |xs| ensures le(key(FirstMin(xs, key, le)), key(xs[i])) {
        if i > 0 {
          assert xs[i] == xs[1..][i - 1];
        }
      }
    }
  }

  /** Stability: the sorted sequence starts with the first minimal element. */
  lemma {:induction false} SortByHead<T, K>(xs: seq<T>, key: T -> K, le: (K, K) -> bool)
    requires xs != []
    ensures SortBy(xs, key, le)[0] == FirstMin(xs, key, le)
  {
    if |xs| > 1 {
      SortByHead(xs[1..], key, le);
    }
  }
}
