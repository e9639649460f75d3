/** The array helpers of `CommonUtils` (src/commonUtil.ts): a multi-key
    in-place sort, a linear search, and the conversions between an array and
    a dictionary keyed by one field. */
module CommonUtils {
  import opened Wrappers

  // ---------------------------------------------------------------------
  // sortArray and its comparator
  // ---------------------------------------------------------------------

  /** The `type` of a sort option: "ASC" or "DESC". */
  datatype SortOrder = Asc | Desc

  /** The field a sort option names. Every field the sort is used on holds
      either numbers (dates, display orders) or strings (account names). */
  datatype SortKey<!T> = IntKey(intOf: T -> int) | StrKey(strOf: T -> string)

  datatype SortOption<!T> = SortOption(key: SortKey<T>, order: SortOrder)

  /** JavaScript's `<` on two strings: character by character, and a proper
      prefix comes first. */
  predicate StrLess(x: string, y: string)
    decreases |x|
  {
    if x == [] then y != []
    else if y == [] then false
    else x[0] < y[0] || (x[0] == y[0] && StrLess(x[1..], y[1..]))
  }

  /** Exactly one of `x < y`, `x == y`, `y < x` holds. */
  lemma {:induction false} StrTrichotomy(x: string, y: string)
    ensures StrLess(x, y) || x == y || StrLess(y, x)
    ensures !(StrLess(x, y) && StrLess(y, x))
    ensures StrLess(x, y) ==> x != y
    decreases |x|
  {
    if x != [] && y != [] && x[0] == y[0] {
      StrTrichotomy(x[1..], y[1..]);
      assert x == [x[0]] + x[1..] && y == [y[0]] + y[1..];
    }
  }

  lemma {:induction false} StrLessTransitive(x: string, y: string, z: string)
    requires StrLess(x, y) && StrLess(y, z)
    ensures StrLess(x, z)
    decreases |x|
  {
    if x != [] && x[0] == y[0] && y[0] == z[0] {
      StrLessTransitive(x[1..], y[1..], z[1..]);
    }
  }

  /** `a[key] < b[key]` */
  predicate KeyLess<T>(key: SortKey<T>, a: T, b: T)
  {
    match key
    case IntKey(f) => f(a) < f(b)
    case StrKey(f) => StrLess(f(a), f(b))
  }

  /** `a[key]` and `b[key]` are the same value. */
  predicate SameKey<T>(key: SortKey<T>, a: T, b: T)
  {
    match key
    case IntKey(f) => f(a) == f(b)
    case StrKey(f) => f(a) == f(b)
  }

  /** Every key is totally ordered: `<` is a strict total order whose
      incomparable pairs are exactly the equal ones. */
  lemma KeyOrder<T>(key: SortKey<T>, a: T, b: T, c: T)
    ensures KeyLess(key, a, b) || SameKey(key, a, b) || KeyLess(key, b, a)
    ensures !(KeyLess(key, a, b) && KeyLess(key, b, a))
    ensures SameKey(key, a, b) ==> !KeyLess(key, a, b)
    ensures KeyLess(key, a, b) && KeyLess(key, b, c) ==> KeyLess(key, a, c)
  {
    match key
    case IntKey(f) =>
    case StrKey(f) =>
      StrTrichotomy(f(a), f(b));
      if StrLess(f(a), f(b)) && StrLess(f(b), f(c)) {
        StrLessTransitive(f(a), f(b), f(c));
      }
  }

  /** 1 for "ASC", -1 for anything else. */
  function Direction(order: SortOrder): int
  {
    if order == Asc then 1 else -1
  }

  /** The comparator that sortArray hands to `Array.prototype.sort`: the
      first option whose key tells `a` and `b` apart decides, otherwise 0. */
  function Compare<T>(a: T, b: T, opts: seq<SortOption<T>>): (c: int)
    ensures c == -1 || c == 0 || c == 1
  {
    if opts == [] then 0
    else if KeyLess(opts[0].key, b, a) then 1 * Direction(opts[0].order)
    else if KeyLess(opts[0].key, a, b) then -1 * Direction(opts[0].order)
    else Compare(a, b, opts[1..])
  }

  /** The comparator is antisymmetric. */
  lemma {:induction false} CompareAntisymmetric<T>(a: T, b: T, opts: seq<SortOption<T>>)
    ensures Compare(a, b, opts) == -Compare(b, a, opts)
  {
    if opts != [] {
      KeyOrder(opts[0].key, a, b, a);
      CompareAntisymmetric(a, b, opts[1..]);
    }
  }

  /** The comparator returns 0 exactly when every option's key is equal. */
  lemma {:induction false} CompareZeroIff<T>(a: T, b: T, opts: seq<SortOption<T>>)
    ensures Compare(a, b, opts) == 0 <==> forall j :: 0 <= j < |opts| ==> SameKey(opts[j].key, a, b)
  {
    if opts != [] {
      KeyOrder(opts[0].key, a, b, a);
      CompareZeroIff(a, b, opts[1..]);
      assert forall j :: 1 <= j < |opts| ==> opts[j] == opts[1..][j - 1];
    }
  }

  /** "Ordered no later than" is transitive. */
  lemma {:induction false} CompareTransitive<T>(a: T, b: T, c: T, opts: seq<SortOption<T>>)
    requires Compare(a, b, opts) <= 0 && Compare(b, c, opts) <= 0
    ensures Compare(a, c, opts) <= 0
  {
    if opts != [] {
      var key := opts[0].key;
      KeyOrder(key, a, b, c);
      KeyOrder(key, b, c, a);
      KeyOrder(key, c, a, b);
      KeyOrder(key, a, c, b);
      KeyOrder(key, c, b, a);
      KeyOrder(key, b, a, c);
      if SameKey(key, a, b) && SameKey(key, b, c) {
        CompareTransitive(a, b, c, opts[1..]);
      }
    }
  }

  /** When the first `k` keys agree and key `k` differs, key `k` alone
      decides the comparison, in the direction of its option. */
  lemma {:induction false} CompareFirstDifference<T>(a: T, b: T, opts: seq<SortOption<T>>, k: nat)
    requires k < |opts|
    requires forall j :: 0 <= j < k ==> SameKey(opts[j].key, a, b)
    requires !SameKey(opts[k].key, a, b)
    ensures Compare(a, b, opts) <= 0 <==>
              if opts[k].order == Asc then KeyLess(opts[k].key, a, b) else KeyLess(opts[k].key, b, a)
  {
    KeyOrder(opts[0].key, a, b, a);
    if k > 0 {
      assert SameKey(opts[0].key, a, b);
      CompareFirstDifference(a, b, opts[1..], k - 1);
    }
  }

  /** Adjacent elements are in comparator order. */
  predicate Sorted<T>(s: seq<T>, opts: seq<SortOption<T>>)
  {
    forall i :: 0 < i < |s| ==> Compare(s[i - 1], s[i], opts) <= 0
  }

  lemma {:induction false} SortedFrom<T>(s: seq<T>, opts: seq<SortOption<T>>, i: nat, j: nat)
    requires Sorted(s, opts) && i < j < |s|
    ensures Compare(s[i], s[j], opts) <= 0
    decreases j - i
  {
    if i + 1 < j {
      SortedFrom(s, opts, i, j - 1);
      CompareTransitive(s[i], s[j - 1], s[j], opts);
    }
  }

  /** A sorted sequence is in comparator order pair by pair, not only
      between neighbours. */
  lemma SortedPairwise<T>(s: seq<T>, opts: seq<SortOption<T>>)
    requires Sorted(s, opts)
    ensures forall i, j :: 0 <= i < j < |s| ==> Compare(s[i], s[j], opts) <= 0
  {
    forall i, j | 0 <= i < j < |s|
      ensures Compare(s[i], s[j], opts) <= 0
    {
      SortedFrom(s, opts, i, j);
    }
  }

  /** Each adjacent pair of a sorted sequence is ordered by the first key on
      which the two elements differ: ascending for Asc, descending for Desc. */
  lemma SortedByFirstDifference<T>(s: seq<T>, opts: seq<SortOption<T>>, i: nat, k: nat)
    requires Sorted(s, opts) && 0 < i < |s| && k < |opts|
    requires forall j :: 0 <= j < k ==> SameKey(opts[j].key, s[i - 1], s[i])
    requires !SameKey(opts[k].key, s[i - 1], s[i])
    ensures opts[k].order == Asc ==> KeyLess(opts[k].key, s[i - 1], s[i])
    ensures opts[k].order == Desc ==> KeyLess(opts[k].key, s[i], s[i - 1])
  {
    CompareFirstDifference(s[i - 1], s[i], opts, k);
  }

  /** The comparator's loop over the options, returning at the first key
      that tells the two apart. */
  method Comparator<T>(a: T, b: T, opts: seq<SortOption<T>>) returns (c: int)
    ensures c == Compare(a, b, opts)
  {
    for i := 0 to |opts|
      invariant Compare(a, b, opts) == Compare(a, b, opts[i..])
    {
      assert opts[i..][0] == opts[i] && opts[i..][1..] == opts[i + 1..];
      var sort := opts[i];
      if KeyLess(sort.key, b, a) {
        return 1 * Direction(sort.order);
      }
      if KeyLess(sort.key, a, b) {
        return -1 * Direction(sort.order);
      }
    }
    return 0;
  }

  method Swap<T>(a: array<T>, i: nat, j: nat)
    requires i < j < a.Length
    modifies a
    ensures a[..] == old(a[..])[i := old(a[j])][j := old(a[i])]
    ensures multiset(a[..]) == multiset(old(a[..]))
  {
    a[i], a[j] := a[j], a[i];
  }

  /** The first `n` elements of `s` are in comparator order, except
      possibly between positions `j - 1` and `j` (`j == 0`: no exception). */
  ghost predicate OrderedBut<T>(s: seq<T>, n: nat, j: nat, opts: seq<SortOption<T>>)
  {
    forall k :: 0 < k < n && k < |s| && k != j ==> Compare(s[k - 1], s[k], opts) <= 0
  }

  /** The state of one insertion pass that has moved the new element to
      position `j` of the first `n`: the prefix is ordered except at `j`,
      and the element before `j` may follow the one after it. */
  ghost predicate InsertState<T>(s: seq<T>, n: nat, j: nat, opts: seq<SortOption<T>>)
  {
    && j < n <= |s|
    && OrderedBut(s, n, j, opts)
    && (0 < j && j + 1 < n ==> Compare(s[j - 1], s[j + 1], opts) <= 0)
  }

  /** Swapping the out-of-order pair at `j - 1`, `j` moves the one break
      in the ordered prefix one place left. */
  lemma SwapKeepsOrder<T>(before: seq<T>, n: nat, j: nat, opts: seq<SortOption<T>>)
    requires 0 < j && InsertState(before, n, j, opts)
    requires Compare(before[j - 1], before[j], opts) > 0
    ensures InsertState(before[j - 1 := before[j]][j := before[j - 1]], n, j - 1, opts)
  {
    var after := before[j - 1 := before[j]][j := before[j - 1]];
    CompareAntisymmetric(before[j - 1], before[j], opts);
    forall k | 0 < k < n && k < |after| && k != j - 1
      ensures Compare(after[k - 1], after[k], opts) <= 0
    {
      if k == j + 1 {
        assert after[k - 1] == before[j - 1] && after[k] == before[j + 1];
      } else if k == j {
      } else {
        assert after[k - 1] == before[k - 1] && after[k] == before[k];
      }
    }
    if 0 < j - 1 {
      assert after[j - 2] == before[j - 2];
    }
  }

  /** One pass of the insertion sort: the element at `i` moves left, by
      swaps, past every element of the ordered prefix that compares after
      it. */
  method Insert<T>(items: array<T>, i: nat, sortOptions: seq<SortOption<T>>)
    requires i < items.Length
    requires OrderedBut(items[..], i, 0, sortOptions)
    modifies items
    ensures OrderedBut(items[..], i + 1, 0, sortOptions)
    ensures multiset(items[..]) == multiset(old(items[..]))
    ensures items[i + 1..] == old(items[i + 1..])
  {
    var j: nat := i;
    while 0 < j
      invariant InsertState(items[..], i + 1, j, sortOptions)
      invariant multiset(items[..]) == multiset(old(items[..]))
      invariant items[i + 1..] == old(items[i + 1..])
    {
      var c := Comparator(items[j - 1], items[j], sortOptions);
      if c <= 0 {
        break;
      }
      SwapKeepsOrder(items[..], i + 1, j, sortOptions);
      Swap(items, j - 1, j);
      j := j - 1;
    }
  }

  /** sortArray: sorts `items` in place by the options and returns that same
      array. The engine's sorting algorithm is not part of the source; an
      insertion sort driven by the same comparator stands for it. */
  method SortArray<T>(items: array<T>, sortOptions: seq<SortOption<T>>) returns (r: array<T>)
    modifies items
    ensures r == items
    ensures multiset(items[..]) == multiset(old(items[..]))
    ensures Sorted(items[..], sortOptions)
  {
    for i := 0 to items.Length
      invariant OrderedBut(items[..], i, 0, sortOptions)
      invariant multiset(items[..]) == multiset(old(items[..]))
    {
      Insert(items, i, sortOptions);
    }
    r := items;
  }

  // ---------------------------------------------------------------------
  // find
  // ---------------------------------------------------------------------

  /** find: the first element the filter accepts, or nothing. */
  method Find<T>(items: seq<T>, filter: T -> bool) returns (r: Option<T>)
    ensures r.None? <==> forall i :: 0 <= i < |items| ==> !filter(items[i])
    ensures r.Some? ==> exists i :: 0 <= i < |items| && items[i] == r.value && filter(items[i])
                                      && forall j :: 0 <= j < i ==> !filter(items[j])
  {
    for i := 0 to |items|
      invariant forall j :: 0 <= j < i ==> !filter(items[j])
    {
      if filter(items[i]) {
        return Some(items[i]);
      }
    }
    return None;
  }

  // ---------------------------------------------------------------------
  // arrayToMap and mapToArray
  // ---------------------------------------------------------------------

  /** The dictionary arrayToMap builds: every item stored under its key, a
      later item overwriting an earlier one with the same key. */
  function KeyedBy<T, K>(items: seq<T>, key: T -> K): map<K, T>
  {
    if items == [] then map[]
    else KeyedBy(items[..|items| - 1], key)[key(items[|items| - 1]) := items[|items| - 1]]
  }

  /** The keys of arrayToMap's dictionary are exactly the items' keys, each
      maps to an item carrying that key, and that item is the last one with
      that key (last write wins). */
  lemma {:induction false} KeyedByMeaning<T, K>(items: seq<T>, key: T -> K)
    ensures KeyedBy(items, key).Keys == set x | x in items :: key(x)
    ensures forall k :: k in KeyedBy(items, key) ==> key(KeyedBy(items, key)[k]) == k
    ensures forall k :: k in KeyedBy(items, key) ==>
              exists i :: 0 <= i < |items| && items[i] == KeyedBy(items, key)[k]
                          && forall j :: i < j < |items| ==> key(items[j]) != k
  {
    if items != [] {
      var prefix, last := items[..|items| - 1], items[|items| - 1];
      assert items == prefix + [last];
      KeyedByMeaning(prefix, key);
      var m := KeyedBy(items, key);
      forall k | k in m
        ensures exists i :: 0 <= i < |items| && items[i] == m[k]
                            && forall j :: i < j < |items| ==> key(items[j]) != k
      {
        if k == key(last) {
          assert items[|items| - 1] == m[k];
        } else {
          var i :| 0 <= i < |prefix| && prefix[i] == KeyedBy(prefix, key)[k]
                   && forall j :: i < j < |prefix| ==> key(prefix[j]) != k;
          assert items[i] == m[k];
        }
      }
    }
  }

  /** With unique keys, each item is what its own key maps to. */
  lemma KeyedByUnique<T, K>(items: seq<T>, key: T -> K, i: nat)
    requires forall p, q :: 0 <= p < q < |items| ==> key(items[p]) != key(items[q])
    requires i < |items|
    ensures key(items[i]) in KeyedBy(items, key) && KeyedBy(items, key)[key(items[i])] == items[i]
  {
    KeyedByMeaning(items, key);
    var m := KeyedBy(items, key);
    var k := key(items[i]);
    assert items[i] in items;
    var p :| 0 <= p < |items| && items[p] == m[k] && forall j :: p < j < |items| ==> key(items[j]) != k;
  }

  /** arrayToMap: fills the dictionary by assigning each item in turn. */
  method ArrayToMap<T, K>(items: seq<T>, key: T -> K) returns (m: map<K, T>)
    ensures m == KeyedBy(items, key)
  {
    m := map[];
    for i := 0 to |items|
      invariant m == KeyedBy(items[..i], key)
    {
      assert items[..i + 1][..i] == items[..i];
      m := m[key(items[i]) := items[i]];
    }
    assert items[..|items|] == items;
  }

  /** `ks` lists every key of `m` exactly once: an order `Object.keys` may
      produce. */
  predicate IsKeyOrder<K, V>(ks: seq<K>, m: map<K, V>)
  {
    && (forall i, j :: 0 <= i < j < |ks| ==> ks[i] != ks[j])
    && m.Keys == set k | k in ks
  }

  /** `Object.keys`: the keys of `m` in an order the model leaves open. */
  method ObjectKeys<K, V>(m: map<K, V>) returns (ks: seq<K>)
    ensures IsKeyOrder(ks, m)
  {
    ks := [];
    var rest := m.Keys;
    while rest != {}
      invariant forall i, j :: 0 <= i < j < |ks| ==> ks[i] != ks[j]
      invariant m.Keys == (set k | k in ks) + rest
      invariant forall i :: 0 <= i < |ks| ==> ks[i] !in rest
      decreases rest
    {
      var k :| k in rest;
      ks := ks + [k];
      rest := rest - {k};
    }
  }

  lemma {:induction false} DistinctCard<K>(ks: seq<K>)
    requires forall i, j :: 0 <= i < j < |ks| ==> ks[i] != ks[j]
    ensures |set k | k in ks| == |ks|
  {
    if ks != [] {
      var init := ks[..|ks| - 1];
      var last := ks[|ks| - 1];
      assert ks == init + [last];
      DistinctCard(init);
      assert (set k | k in ks) == (set k | k in init) + {last};
      assert last !in init;
    }
  }

  /** mapToArray: the dictionary's values, one per key, in key order `ks`. */
  function MapToArray<K, V>(m: map<K, V>, ks: seq<K>): (r: seq<V>)
    requires IsKeyOrder(ks, m)
    ensures |r| == |ks| == |m|
    ensures forall i :: 0 <= i < |r| ==> ks[i] in m && r[i] == m[ks[i]]
  {
    DistinctCard(ks);
    seq(|ks|, i requires 0 <= i < |ks| => m[ks[i]])
  }

  /** Every value stored in the map appears in mapToArray's output, and
      nothing else does. */
  lemma MapToArrayValues<K, V>(m: map<K, V>, ks: seq<K>)
    requires IsKeyOrder(ks, m)
    ensures forall k :: k in m ==> m[k] in MapToArray(m, ks)
    ensures forall v :: v in MapToArray(m, ks) ==> exists k :: k in m && m[k] == v
  {
    var r := MapToArray(m, ks);
    forall k | k in m
      ensures m[k] in r
    {
      var i :| 0 <= i < |ks| && ks[i] == k;
      assert r[i] == m[k];
    }
  }

  ghost predicate Distinct<T>(s: seq<T>)
  {
    forall i, j :: 0 <= i < j < |s| ==> s[i] != s[j]
  }

  lemma {:induction false} DistinctCount<T>(s: seq<T>, x: T)
    requires Distinct(s)
    ensures multiset(s)[x] == if x in s then 1 else 0
  {
    if s != [] {
      var init := s[..|s| - 1];
      var last := s[|s| - 1];
      assert s == init + [last];
      DistinctCount(init, x);
      assert last !in init;
    }
  }

  /** A sequence in which no value occurs twice has distinct elements. */
  lemma {:induction false} SingleCountsDistinct<T>(s: seq<T>)
    requires forall x :: multiset(s)[x] <= 1
    ensures Distinct(s)
  {
    if s != [] {
      var init, y := s[..|s| - 1], s[|s| - 1];
      assert s == init + [y];
      assert forall x :: multiset(s)[x] == multiset(init)[x] + multiset([y])[x];
      SingleCountsDistinct(init);
      assert multiset(init)[y] == 0;
    }
  }

  /** Reordering a sequence keeps the values of `f` on it pairwise distinct. */
  lemma PermutationKeepsDistinct<T, K>(s: seq<T>, t: seq<T>, f: T -> K)
    requires multiset(s) == multiset(t)
    requires forall i, j :: 0 <= i < j < |t| ==> f(t[i]) != f(t[j])
    ensures forall i, j :: 0 <= i < j < |s| ==> f(s[i]) != f(s[j])
  {
    assert Distinct(t);
    forall x
      ensures multiset(s)[x] <= 1
    {
      DistinctCount(t, x);
    }
    SingleCountsDistinct(s);
    forall i, j | 0 <= i < j < |s|
      ensures f(s[i]) != f(s[j])
    {
      assert s[i] in multiset(t) && s[j] in multiset(t);
      var a :| 0 <= a < |t| && t[a] == s[i];
      var b :| 0 <= b < |t| && t[b] == s[j];
      assert a != b;
    }
  }

  lemma DistinctSameElements<T>(s: seq<T>, t: seq<T>)
    requires Distinct(s) && Distinct(t)
    requires forall i :: 0 <= i < |s| ==> s[i] in t
    requires forall i :: 0 <= i < |t| ==> t[i] in s
    ensures multiset(s) == multiset(t)
  {
    forall x
      ensures multiset(s)[x] == multiset(t)[x]
    {
      DistinctCount(s, x);
      DistinctCount(t, x);
    }
  }

  lemma RoundTripKeepsItems<T, K>(items: seq<T>, key: T -> K, ks: seq<K>)
    requires forall i, j :: 0 <= i < j < |items| ==> key(items[i]) != key(items[j])
    requires IsKeyOrder(ks, KeyedBy(items, key))
    ensures forall i :: 0 <= i < |items| ==> items[i] in MapToArray(KeyedBy(items, key), ks)
  {
    var m := KeyedBy(items, key);
    MapToArrayValues(m, ks);
    forall i | 0 <= i < |items|
      ensures items[i] in MapToArray(m, ks)
    {
      KeyedByUnique(items, key, i);
    }
  }

  lemma RoundTripAddsNothing<T, K>(items: seq<T>, key: T -> K, ks: seq<K>)
    requires IsKeyOrder(ks, KeyedBy(items, key))
    ensures forall i :: 0 <= i < |ks| ==> MapToArray(KeyedBy(items, key), ks)[i] in items
  {
    KeyedByMeaning(items, key);
    var m := KeyedBy(items, key);
    var r := MapToArray(m, ks);
    forall i | 0 <= i < |r|
      ensures r[i] in items
    {
      assert ks[i] in m;
      var p :| 0 <= p < |items| && items[p] == m[ks[i]];
    }
  }

  lemma RoundTripDistinct<T, K>(items: seq<T>, key: T -> K, ks: seq<K>)
    requires IsKeyOrder(ks, KeyedBy(items, key))
    ensures Distinct(MapToArray(KeyedBy(items, key), ks))
  {
    KeyedByMeaning(items, key);
    var m := KeyedBy(items, key);
    var r := MapToArray(m, ks);
    forall i, j | 0 <= i < j < |r|
      ensures r[i] != r[j]
    {
      assert key(r[i]) == ks[i] && key(r[j]) == ks[j];
    }
  }

  /** For an array whose keys are unique, converting it to a map and back
      yields the same items, each once, in some order. */
  lemma MapToArrayOfArrayToMap<T, K>(items: seq<T>, key: T -> K, ks: seq<K>)
    requires forall i, j :: 0 <= i < j < |items| ==> key(items[i]) != key(items[j])
    requires IsKeyOrder(ks, KeyedBy(items, key))
    ensures multiset(MapToArray(KeyedBy(items, key), ks)) == multiset(items)
  {
    RoundTripKeepsItems(items, key, ks);
    RoundTripAddsNothing(items, key, ks);
    RoundTripDistinct(items, key, ks);
    DistinctSameElements(MapToArray(KeyedBy(items, key), ks), items);
  }
}
