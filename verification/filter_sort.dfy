/**
 * `applyFiltersAndSort` of app/store/productsSlice.ts: keep the products of the
 * selected category (if any), then sort a copy with `Array.prototype.sort`, which
 * the ECMAScript standard requires to be stable since its 2019 edition.
 *
 * The sort is modelled by a stable insertion sort driven by the source's own
 * comparators; `StableSortIsUnique` shows that every stable sort by the same
 * comparator gives the same result, so nothing depends on the engine's algorithm.
 */
module FilterSort {
  import opened Wrappers
  import opened Seqs
  import opened Products

  /** The comparator the source passes to `sort`; only its sign matters. */
  function Compare(mode: SortOption, a: Product, b: Product): (r: real)
    ensures r < 0.0 <==> (mode == PriceAsc && a.price < b.price)
                         || (mode == PriceDesc && a.price > b.price)
                         || (mode == RatingDesc && a.rating > b.rating)
    ensures r == 0.0 <==> mode == NoSort
                          || (mode in {PriceAsc, PriceDesc} && a.price == b.price)
                          || (mode == RatingDesc && a.rating == b.rating)
  {
    match mode
    case PriceAsc => a.price - b.price
    case PriceDesc => b.price - a.price
    case RatingDesc => b.rating - a.rating
    case NoSort => 0.0
  }

  /** A key whose ascending order is the comparator's order. */
  function Rank(mode: SortOption, p: Product): real {
    match mode
    case PriceAsc => p.price
    case PriceDesc => -p.price
    case RatingDesc => -p.rating
    case NoSort => 0.0
  }

  /** The comparator's value is the difference of the two keys. */
  lemma CompareIsRankDifference(mode: SortOption, a: Product, b: Product)
    ensures Compare(mode, a, b) == Rank(mode, a) - Rank(mode, b)
  {
  }

  /** Every element is ordered no later than every element after it. */
  predicate Sorted(mode: SortOption, s: seq<Product>) {
    forall i, j :: 0 <= i < j < |s| ==> Rank(mode, s[i]) <= Rank(mode, s[j])
  }

  /** The elements of `s` whose key is `k`, in their order in `s`. */
  function SameRank(mode: SortOption, s: seq<Product>, k: real): seq<Product> {
    Filter(s, HasRank(mode, k))
  }

  /** The test "has key `k`" as a value, so that every use names the same function. */
  function HasRank(mode: SortOption, k: real): Product -> bool {
    (p: Product) => Rank(mode, p) == k
  }

  /**
   * Inserts `x` into the sorted `t` before the first element that does not
   * compare strictly below it, so `x` lands ahead of its equals.
   */
  function Insert(mode: SortOption, x: Product, t: seq<Product>): seq<Product> {
    if t == [] then [x]
    else if Compare(mode, t[0], x) < 0.0 then [t[0]] + Insert(mode, x, t[1..])
    else [x] + t
  }

  lemma {:induction false} InsertPermutes(mode: SortOption, x: Product, t: seq<Product>)
    ensures multiset(Insert(mode, x, t)) == multiset(t) + multiset{x}
  {
    if t != [] && Compare(mode, t[0], x) < 0.0 {
      InsertPermutes(mode, x, t[1..]);
      assert t == [t[0]] + t[1..];
    }
  }

  /** No element of `s` has a key below `b`. */
  predicate AllAtLeast(mode: SortOption, s: seq<Product>, b: real) {
    forall i :: 0 <= i < |s| ==> b <= Rank(mode, s[i])
  }

  lemma {:induction false} InsertAtLeast(mode: SortOption, x: Product, t: seq<Product>, b: real)
    requires AllAtLeast(mode, t, b) && b <= Rank(mode, x)
    ensures AllAtLeast(mode, Insert(mode, x, t), b)
  {
    if t != [] && Compare(mode, t[0], x) < 0.0 {
      InsertAtLeast(mode, x, t[1..], b);
    }
  }

  /** A head no greater than a sorted tail gives a sorted sequence. */
  lemma SortedCons(mode: SortOption, h: Product, r: seq<Product>)
    requires Sorted(mode, r) && AllAtLeast(mode, r, Rank(mode, h))
    ensures Sorted(mode, [h] + r)
  {
    var s := [h] + r;
    forall i, j | 0 <= i < j < |s| ensures Rank(mode, s[i]) <= Rank(mode, s[j]) {
      assert s[j] == r[j - 1];
      if i > 0 {
        assert s[i] == r[i - 1];
      }
    }
  }

  lemma {:induction false} InsertSorted(mode: SortOption, x: Product, t: seq<Product>)
    requires Sorted(mode, t)
    ensures Sorted(mode, Insert(mode, x, t))
  {
    if t != [] {
      CompareIsRankDifference(mode, t[0], x);
      assert AllAtLeast(mode, t[1..], Rank(mode, t[0])) by {
        forall i | 0 <= i < |t[1..]| ensures Rank(mode, t[0]) <= Rank(mode, t[1..][i]) {
          assert t[1..][i] == t[i + 1];
        }
      }
      if Compare(mode, t[0], x) < 0.0 {
        InsertSorted(mode, x, t[1..]);
        InsertAtLeast(mode, x, t[1..], Rank(mode, t[0]));
        SortedCons(mode, t[0], Insert(mode, x, t[1..]));
      } else {
        assert AllAtLeast(mode, t, Rank(mode, x)) by {
          forall i | 0 <= i < |t| ensures Rank(mode, x) <= Rank(mode, t[i]) {
            if i > 0 {
              assert Rank(mode, t[0]) <= Rank(mode, t[i]);
            }
          }
        }
        SortedCons(mode, x, t);
      }
    }
  }

  /** Stable insertion sort by the comparator of `mode`. */
  function StableSort(mode: SortOption, s: seq<Product>): (r: seq<Product>)
    ensures multiset(r) == multiset(s)
    ensures Sorted(mode, r)
  {
    if s == [] then []
    else
      var rest := StableSort(mode, s[1..]);
      InsertPermutes(mode, s[0], rest);
      InsertSorted(mode, s[0], rest);
      assert multiset(s) == multiset{s[0]} + multiset(s[1..]) by {
        assert s == [s[0]] + s[1..];
      }
      Insert(mode, s[0], rest)
  }

  /** `if (category)`: null and the empty string select every product. */
  function SelectCategory(products: seq<Product>, category: Option<string>): (r: seq<Product>)
    ensures !Truthy(category) ==> r == products
    ensures Truthy(category) ==> r == Filter(products, (p: Product) => p.category == category.value)
  {
    if Truthy(category) then Filter(products, (p: Product) => p.category == category.value) else products
  }

  /** The derived `filteredProducts` list. The input sequence is a value: it is never changed. */
  function ApplyFiltersAndSort(products: seq<Product>, category: Option<string>, sortOption: SortOption): seq<Product>
  {
    var filtered := SelectCategory(products, category);
    if sortOption == NoSort then filtered else StableSort(sortOption, filtered)
  }

  // ---------------------------------------------------------------------------
  // Stability and uniqueness of the sort

  /** Inserting `x` adds it in front of its equals and leaves the other key classes alone. */
  lemma {:induction false} InsertSameRank(mode: SortOption, x: Product, t: seq<Product>, k: real)
    ensures SameRank(mode, Insert(mode, x, t), k)
         == if Rank(mode, x) == k then [x] + SameRank(mode, t, k) else SameRank(mode, t, k)
  {
    var r := Insert(mode, x, t);
    if t != [] && Compare(mode, t[0], x) < 0.0 {
      InsertSameRank(mode, x, t[1..], k);
      CompareIsRankDifference(mode, t[0], x);
      assert r == [t[0]] + Insert(mode, x, t[1..]);
      assert t == [t[0]] + t[1..];
      ClassPastHead(mode, t[0], Insert(mode, x, t[1..]), t[1..], x, k);
    } else {
      assert r[0] == x && r[1..] == t;
      SameRankCons(mode, r, k);
    }
  }

  /** Putting a head that ranks strictly below `x` in front of both sides keeps the class equation. */
  lemma ClassPastHead(mode: SortOption, h: Product, u: seq<Product>, t: seq<Product>, x: Product, k: real)
    requires Rank(mode, h) < Rank(mode, x)
    requires SameRank(mode, u, k) == if Rank(mode, x) == k then [x] + SameRank(mode, t, k) else SameRank(mode, t, k)
    ensures SameRank(mode, [h] + u, k)
         == if Rank(mode, x) == k then [x] + SameRank(mode, [h] + t, k) else SameRank(mode, [h] + t, k)
  {
    SameRankCons(mode, [h] + u, k);
    SameRankCons(mode, [h] + t, k);
    assert ([h] + u)[1..] == u && ([h] + t)[1..] == t;
    if Rank(mode, x) == k {
      assert SameRank(mode, [h] + u, k) == SameRank(mode, u, k);
      assert SameRank(mode, [h] + t, k) == SameRank(mode, t, k);
    } else {
      var head := if Rank(mode, h) == k then [h] else [];
      assert SameRank(mode, [h] + u, k) == head + SameRank(mode, t, k);
    }
  }

  /** The sort keeps the relative order of every class of equal keys. */
  lemma {:induction false} StableSortIsStable(mode: SortOption, s: seq<Product>, k: real)
    ensures SameRank(mode, StableSort(mode, s), k) == SameRank(mode, s, k)
  {
    if s != [] {
      var t := StableSort(mode, s[1..]);
      assert StableSort(mode, s) == Insert(mode, s[0], t);
      StableSortIsStable(mode, s[1..], k);
      InsertSameRank(mode, s[0], t, k);
      SameRankCons(mode, s, k);
    }
  }

  /** Splits off the head of a key class. */
  lemma SameRankCons(mode: SortOption, s: seq<Product>, k: real)
    requires s != []
    ensures SameRank(mode, s, k)
         == (if Rank(mode, s[0]) == k then [s[0]] else []) + SameRank(mode, s[1..], k)
  {
  }

  /** An element of `s` shows up in the class of its own key. */
  lemma InSameRank(mode: SortOption, s: seq<Product>, y: Product)
    requires y in s
    ensures y in SameRank(mode, s, Rank(mode, y))
  {
  }

  /** In a sorted sequence the head's key is the least key. */
  lemma HeadKeyIsLeast(mode: SortOption, s: seq<Product>, k: real)
    requires Sorted(mode, s) && SameRank(mode, s, k) != []
    ensures s != [] && Rank(mode, s[0]) <= k
  {
    var y := SameRank(mode, s, k)[0];
    assert y in SameRank(mode, s, k);
    KeyAtLeastHead(mode, s, y);
  }

  /** The tail of a sorted sequence is sorted. */
  lemma SortedTail(mode: SortOption, s: seq<Product>)
    requires Sorted(mode, s) && s != []
    ensures Sorted(mode, s[1..])
  {
    forall i, j | 0 <= i < j < |s[1..]| ensures Rank(mode, s[1..][i]) <= Rank(mode, s[1..][j]) {
      assert s[1..][i] == s[i + 1] && s[1..][j] == s[j + 1];
    }
  }

  /**
   * Two sequences sorted by the same comparator that agree on the order within
   * every class of equal keys are equal: a stable sort has exactly one result.
   */
  lemma {:induction false} StableSortIsUnique(mode: SortOption, a: seq<Product>, b: seq<Product>)
    requires Sorted(mode, a) && Sorted(mode, b)
    requires forall k :: SameRank(mode, a, k) == SameRank(mode, b, k)
    ensures a == b
    decreases |a|
  {
    if a != [] && b != [] {
      SameHead(mode, a, b);
      SameTailClasses(mode, a, b);
      SortedTail(mode, a);
      SortedTail(mode, b);
      StableSortIsUnique(mode, a[1..], b[1..]);
      assert a == [a[0]] + a[1..] && b == [b[0]] + b[1..];
    } else if a != [] {
      InSameRank(mode, a, a[0]);
      assert false;
    } else if b != [] {
      InSameRank(mode, b, b[0]);
      assert false;
    }
  }

  /** Both heads carry the least key, which is shared, so both are the first of that class. */
  lemma SameHead(mode: SortOption, a: seq<Product>, b: seq<Product>)
    requires Sorted(mode, a) && Sorted(mode, b) && a != [] && b != []
    requires forall k :: SameRank(mode, a, k) == SameRank(mode, b, k)
    ensures a[0] == b[0]
  {
    var ra, rb := Rank(mode, a[0]), Rank(mode, b[0]);
    InSameRank(mode, a, a[0]);
    assert SameRank(mode, a, ra) == SameRank(mode, b, ra);
    HeadKeyIsLeast(mode, b, ra);
    InSameRank(mode, b, b[0]);
    assert SameRank(mode, a, rb) == SameRank(mode, b, rb);
    HeadKeyIsLeast(mode, a, rb);
    assert ra == rb;
    SameRankCons(mode, a, ra);
    SameRankCons(mode, b, ra);
    assert SameRank(mode, a, ra)[0] == a[0];
    assert SameRank(mode, b, ra)[0] == b[0];
  }

  /** Removing equal heads keeps every class in agreement. */
  lemma SameTailClasses(mode: SortOption, a: seq<Product>, b: seq<Product>)
    requires a != [] && b != [] && a[0] == b[0]
    requires forall k :: SameRank(mode, a, k) == SameRank(mode, b, k)
    ensures forall k :: SameRank(mode, a[1..], k) == SameRank(mode, b[1..], k)
  {
    forall k ensures SameRank(mode, a[1..], k) == SameRank(mode, b[1..], k) {
      SameRankCons(mode, a, k);
      SameRankCons(mode, b, k);
      var head := if Rank(mode, a[0]) == k then [a[0]] else [];
      assert SameRank(mode, a, k) == SameRank(mode, b, k);
      assert SameRank(mode, a[1..], k) == (head + SameRank(mode, a[1..], k))[|head|..];
      assert SameRank(mode, b[1..], k) == (head + SameRank(mode, b[1..], k))[|head|..];
    }
  }

  /** A position of `y` in `s`, for a `y` that occurs in `s`. */
  function IndexIn(s: seq<Product>, y: Product): (i: nat)
    requires y in s
    ensures i < |s| && s[i] == y
  {
    if s[0] == y then 0 else 1 + IndexIn(s[1..], y)
  }

  /** In a sorted sequence no element has a smaller key than the head. */
  lemma KeyAtLeastHead(mode: SortOption, s: seq<Product>, y: Product)
    requires Sorted(mode, s) && y in s
    ensures Rank(mode, s[0]) <= Rank(mode, y)
  {
    var i := IndexIn(s, y);
    if i > 0 {
      assert Rank(mode, s[0]) <= Rank(mode, s[i]);
    }
  }

  // ---------------------------------------------------------------------------
  // What applyFiltersAndSort promises

  /** No truthy category and no sort: the result is an equal copy of the input. */
  lemma ApplyUnfilteredIsCopy(products: seq<Product>, category: Option<string>)
    requires !Truthy(category)
    ensures ApplyFiltersAndSort(products, category, NoSort) == products
  {
  }

  /**
   * With a category set, the result holds exactly the products of that category,
   * each as many times as the input holds it; unsorted, it keeps their order.
   */
  lemma {:induction false} ApplySelectsCategory(products: seq<Product>, category: Option<string>, sortOption: SortOption)
    requires Truthy(category)
    ensures forall p :: p in ApplyFiltersAndSort(products, category, sortOption)
                        <==> p in products && p.category == category.value
    ensures forall p :: multiset(ApplyFiltersAndSort(products, category, sortOption))[p]
                        == if p.category == category.value then multiset(products)[p] else 0
    ensures sortOption == NoSort ==> IsSubsequence(ApplyFiltersAndSort(products, category, sortOption), products)
  {
    var keep := (p: Product) => p.category == category.value;
    var filtered := SelectCategory(products, category);
    assert filtered == Filter(products, keep);
    forall p ensures multiset(ApplyFiltersAndSort(products, category, sortOption))[p]
                     == if p.category == category.value then multiset(products)[p] else 0 {
      FilterCounts(products, keep, p);
    }
    forall p ensures p in ApplyFiltersAndSort(products, category, sortOption)
                     <==> p in products && p.category == category.value {
      FilterCounts(products, keep, p);
      assert p in ApplyFiltersAndSort(products, category, sortOption)
             <==> multiset(ApplyFiltersAndSort(products, category, sortOption))[p] > 0;
    }
    FilterIsSubsequence(products, keep);
  }

  /** The result is always a rearrangement of the category selection. */
  lemma ApplyPermutesSelection(products: seq<Product>, category: Option<string>, sortOption: SortOption)
    ensures multiset(ApplyFiltersAndSort(products, category, sortOption)) == multiset(SelectCategory(products, category))
  {
  }

  /** `price-asc` is nondecreasing in price; `price-desc` and `rating-desc` are nonincreasing. */
  lemma ApplyOrdersByKey(products: seq<Product>, category: Option<string>, sortOption: SortOption)
    ensures var r := ApplyFiltersAndSort(products, category, sortOption);
            && (sortOption == PriceAsc ==> forall i, j :: 0 <= i < j < |r| ==> r[i].price <= r[j].price)
            && (sortOption == PriceDesc ==> forall i, j :: 0 <= i < j < |r| ==> r[i].price >= r[j].price)
            && (sortOption == RatingDesc ==> forall i, j :: 0 <= i < j < |r| ==> r[i].rating >= r[j].rating)
  {
    var r := ApplyFiltersAndSort(products, category, sortOption);
    if sortOption != NoSort {
      assert Sorted(sortOption, r);
      forall i, j | 0 <= i < j < |r| ensures Rank(sortOption, r[i]) <= Rank(sortOption, r[j]) {
      }
    }
  }

  /** Products with equal keys come out in their input order. */
  lemma ApplyIsStable(products: seq<Product>, category: Option<string>, sortOption: SortOption, k: real)
    ensures SameRank(sortOption, ApplyFiltersAndSort(products, category, sortOption), k)
         == SameRank(sortOption, SelectCategory(products, category), k)
  {
    if sortOption != NoSort {
      StableSortIsStable(sortOption, SelectCategory(products, category), k);
    }
  }

  /**
   * Any arrangement of the selection that is ordered by the comparator and keeps
   * equal keys in input order is the result: the output does not depend on which
   * stable sorting algorithm the JavaScript engine uses.
   */
  lemma ApplyIsAnyStableSort(products: seq<Product>, category: Option<string>, sortOption: SortOption, r: seq<Product>)
    requires sortOption != NoSort && Sorted(sortOption, r)
    requires forall k :: SameRank(sortOption, r, k) == SameRank(sortOption, SelectCategory(products, category), k)
    ensures r == ApplyFiltersAndSort(products, category, sortOption)
  {
    var out := ApplyFiltersAndSort(products, category, sortOption);
    forall k ensures SameRank(sortOption, r, k) == SameRank(sortOption, out, k) {
      ApplyIsStable(products, category, sortOption, k);
    }
    StableSortIsUnique(sortOption, r, out);
  }

  /** Applying the same category and sort to the derived list changes nothing. */
  lemma ApplyIsIdempotent(products: seq<Product>, category: Option<string>, sortOption: SortOption)
    ensures ApplyFiltersAndSort(ApplyFiltersAndSort(products, category, sortOption), category, sortOption)
         == ApplyFiltersAndSort(products, category, sortOption)
  {
    var once := ApplyFiltersAndSort(products, category, sortOption);
    if Truthy(category) {
      ApplySelectsCategory(products, category, sortOption);
      FilterAll(once, (p: Product) => p.category == category.value);
    }
    assert SelectCategory(once, category) == once;
    if sortOption != NoSort {
      var twice := StableSort(sortOption, once);
      forall k ensures SameRank(sortOption, twice, k) == SameRank(sortOption, once, k) {
        StableSortIsStable(sortOption, once, k);
      }
      StableSortIsUnique(sortOption, twice, once);
    }
  }

  /** `price-desc` on prices 5, 1, 5 gives 5 (first), 5 (third), 1. */
  lemma PriceDescKeepsTiesInOrder(a: Product, b: Product, c: Product)
    requires a.price == 5.0 && b.price == 1.0 && c.price == 5.0
    ensures ApplyFiltersAndSort([a, b, c], None, PriceDesc) == [a, c, b]
  {
    assert [a, b, c][1..] == [b, c] && [b, c][1..] == [c] && [c][1..] == [];
    assert StableSort(PriceDesc, [c]) == [c];
    assert [c][1..] == [];
    assert Insert(PriceDesc, b, [c]) == [c] + Insert(PriceDesc, b, []);
    assert StableSort(PriceDesc, [b, c]) == [c, b];
    assert Insert(PriceDesc, a, [c, b]) == [a, c, b];
  }
}
