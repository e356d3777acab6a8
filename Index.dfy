/**
 * The home page's catalogue queries: case-insensitive search, platform
 * filtering, the platform toggle that never leaves the selection empty,
 * and the four sort orders, together with the page state they update.
 */
module Index {
  import opened Wrappers
  import opened MockData
  import opened Lists
  import opened Strings

  // ---------------------------------------------------------------- search

  /** The dish's name, restaurant or cuisine contains the query, ignoring case. */
  predicate FoodMatches(item: FoodItem, query: string) {
    var q := ToLower(query);
    Contains(ToLower(item.name), q) || Contains(ToLower(item.restaurant), q) ||
    Contains(ToLower(item.cuisine), q)
  }

  /** The restaurant's name or one of its cuisines contains the query, ignoring case. */
  predicate RestaurantMatches(r: Restaurant, query: string) {
    var q := ToLower(query);
    Contains(ToLower(r.name), q) || exists c :: c in r.cuisine && Contains(ToLower(c), q)
  }

  function SearchFood(items: seq<FoodItem>, query: string): (r: seq<FoodItem>)
    ensures IsSubsequence(r, items)
    ensures forall x :: x in r <==> x in items && FoodMatches(x, query)
  {
    var p := (x: FoodItem) => FoodMatches(x, query);
    FilterIsSubsequence(p, items);
    forall x ensures x in Filter(p, items) <==> x in items && p(x) { FilterMembership(p, items, x); }
    Filter(p, items)
  }

  function SearchRestaurants(rs: seq<Restaurant>, query: string): (r: seq<Restaurant>)
    ensures IsSubsequence(r, rs)
    ensures forall x :: x in r <==> x in rs && RestaurantMatches(x, query)
  {
    var p := (x: Restaurant) => RestaurantMatches(x, query);
    FilterIsSubsequence(p, rs);
    forall x ensures x in Filter(p, rs) <==> x in rs && p(x) { FilterMembership(p, rs, x); }
    Filter(p, rs)
  }

  /** Each matching dish is kept as often as it occurs, and no other dish is. */
  lemma SearchFoodCounts(items: seq<FoodItem>, query: string)
    ensures forall x :: multiset(SearchFood(items, query))[x] ==
                        if FoodMatches(x, query) then multiset(items)[x] else 0
  {
    FilterCounts((x: FoodItem) => FoodMatches(x, query), items);
  }

  lemma SearchRestaurantsCounts(rs: seq<Restaurant>, query: string)
    ensures forall x :: multiset(SearchRestaurants(rs, query))[x] ==
                        if RestaurantMatches(x, query) then multiset(rs)[x] else 0
  {
    FilterCounts((x: Restaurant) => RestaurantMatches(x, query), rs);
  }

  /** Queries that differ only in letter case find the same dishes and restaurants. */
  lemma SearchIgnoresCase(items: seq<FoodItem>, rs: seq<Restaurant>, q1: string, q2: string)
    requires ToLower(q1) == ToLower(q2)
    ensures SearchFood(items, q1) == SearchFood(items, q2)
    ensures SearchRestaurants(rs, q1) == SearchRestaurants(rs, q2)
  {
    FilterCongruent((x: FoodItem) => FoodMatches(x, q1), (x: FoodItem) => FoodMatches(x, q2), items);
    FilterCongruent((x: Restaurant) => RestaurantMatches(x, q1), (x: Restaurant) => RestaurantMatches(x, q2), rs);
  }

  /** The empty query matches everything. */
  lemma EmptySearchKeepsAll(items: seq<FoodItem>, rs: seq<Restaurant>)
    ensures SearchFood(items, "") == items
    ensures SearchRestaurants(rs, "") == rs
  {
    forall x: FoodItem ensures FoodMatches(x, "") { assert "" <= ToLower(x.name)[0..]; }
    forall x: Restaurant ensures RestaurantMatches(x, "") { assert "" <= ToLower(x.name)[0..]; }
    FilterKeepsAll((x: FoodItem) => FoodMatches(x, ""), items);
    FilterKeepsAll((x: Restaurant) => RestaurantMatches(x, ""), rs);
  }

  // ---------------------------------------------------------------- platform filter

  /** Some offer of the dish is on an active platform. */
  predicate OfferedOnActive(item: FoodItem, active: seq<string>) {
    exists o :: o in item.pricingOptions && o.platform in active
  }

  /** Some platform the restaurant lists is active. */
  predicate ListedOnActive(r: Restaurant, active: seq<string>) {
    exists p :: p in r.platforms && p in active
  }

  function FilterFoodByPlatform(items: seq<FoodItem>, active: seq<string>): (r: seq<FoodItem>)
    ensures IsSubsequence(r, items)
    ensures forall x :: x in r <==> x in items && OfferedOnActive(x, active)
  {
    var p := (x: FoodItem) => OfferedOnActive(x, active);
    FilterIsSubsequence(p, items);
    forall x ensures x in Filter(p, items) <==> x in items && p(x) { FilterMembership(p, items, x); }
    Filter(p, items)
  }

  function FilterRestaurantsByPlatform(rs: seq<Restaurant>, active: seq<string>): (r: seq<Restaurant>)
    ensures IsSubsequence(r, rs)
    ensures forall x :: x in r <==> x in rs && ListedOnActive(x, active)
  {
    var p := (x: Restaurant) => ListedOnActive(x, active);
    FilterIsSubsequence(p, rs);
    forall x ensures x in Filter(p, rs) <==> x in rs && p(x) { FilterMembership(p, rs, x); }
    Filter(p, rs)
  }

  /** Each dish offered on an active platform is kept as often as it occurs, and no other dish is. */
  lemma FilterFoodByPlatformCounts(items: seq<FoodItem>, active: seq<string>)
    ensures forall x :: multiset(FilterFoodByPlatform(items, active))[x] ==
                        if OfferedOnActive(x, active) then multiset(items)[x] else 0
  {
    FilterCounts((x: FoodItem) => OfferedOnActive(x, active), items);
  }

  /** Each restaurant listing an active platform is kept as often as it occurs, and no other is. */
  lemma FilterRestaurantsByPlatformCounts(rs: seq<Restaurant>, active: seq<string>)
    ensures forall x :: multiset(FilterRestaurantsByPlatform(rs, active))[x] ==
                        if ListedOnActive(x, active) then multiset(rs)[x] else 0
  {
    FilterCounts((x: Restaurant) => ListedOnActive(x, active), rs);
  }

  /** With all three platforms active, every fixture dish and restaurant is shown. */
  lemma AllPlatformsShowEverything()
    ensures FilterFoodByPlatform(FoodItems, Platforms) == FoodItems
    ensures FilterRestaurantsByPlatform(Restaurants, Platforms) == Restaurants
  {
    forall x | x in FoodItems ensures OfferedOnActive(x, Platforms) {
      assert x.pricingOptions[0] in x.pricingOptions;
    }
    forall x | x in Restaurants ensures ListedOnActive(x, Platforms) {
      assert x.platforms[0] in x.platforms;
    }
    FilterKeepsAll((x: FoodItem) => OfferedOnActive(x, Platforms), FoodItems);
    FilterKeepsAll((x: Restaurant) => ListedOnActive(x, Platforms), Restaurants);
  }

  /** Filtering an already filtered list by the same platforms changes nothing. */
  lemma PlatformFilterIdempotent(items: seq<FoodItem>, rs: seq<Restaurant>, active: seq<string>)
    ensures FilterFoodByPlatform(FilterFoodByPlatform(items, active), active) == FilterFoodByPlatform(items, active)
    ensures FilterRestaurantsByPlatform(FilterRestaurantsByPlatform(rs, active), active) ==
            FilterRestaurantsByPlatform(rs, active)
  {
    FilterIdempotent((x: FoodItem) => OfferedOnActive(x, active), items);
    FilterIdempotent((x: Restaurant) => ListedOnActive(x, active), rs);
  }

  // ---------------------------------------------------------------- platform toggle

  /** Removes an active platform, or appends an inactive one at the end. */
  function TogglePlatform(active: seq<string>, platform: string): (r: seq<string>)
    ensures platform !in active ==> r == active + [platform]
    ensures platform in active ==> platform !in r && forall p :: p in r ==> p in active
  {
    if platform in active then Filter((p: string) => p != platform, active) else active + [platform]
  }

  /** The new selection: the toggled list, unless toggling would leave no platform selected. */
  function NextActivePlatforms(active: seq<string>, platform: string): (r: seq<string>)
    ensures |r| > 0
    ensures |TogglePlatform(active, platform)| > 0 ==> r == TogglePlatform(active, platform)
    ensures |TogglePlatform(active, platform)| == 0 ==> r == active
  {
    var t := TogglePlatform(active, platform);
    if |t| == 0 then active else t
  }

  /** Toggling an active platform drops it and keeps every other platform, in order. */
  lemma ToggleRemoves(active: seq<string>, platform: string)
    requires platform in active
    ensures platform !in TogglePlatform(active, platform)
    ensures IsSubsequence(TogglePlatform(active, platform), active)
    ensures forall p :: p in active && p != platform ==> p in TogglePlatform(active, platform)
  {
    var f := (p: string) => p != platform;
    FilterIsSubsequence(f, active);
    forall p ensures p in Filter(f, active) <==> p in active && f(p) { FilterMembership(f, active, p); }
  }

  /** Toggling an inactive platform twice restores the selection. */
  lemma ToggleTwiceRestores(active: seq<string>, platform: string)
    requires platform !in active
    ensures TogglePlatform(TogglePlatform(active, platform), platform) == active
  {
    var f := (p: string) => p != platform;
    FilterDistributes(f, active, [platform]);
    FilterKeepsAll(f, active);
  }

  /** The toggle is refused exactly when the selection holds nothing but that platform. */
  lemma ToggleRefusedIff(active: seq<string>, platform: string)
    ensures |TogglePlatform(active, platform)| == 0 <==>
            |active| > 0 && forall p :: p in active ==> p == platform
  {
    var f := (p: string) => p != platform;
    forall p ensures p in Filter(f, active) <==> p in active && f(p) { FilterMembership(f, active, p); }
    if platform in active && |Filter(f, active)| > 0 {
      assert Filter(f, active)[0] in Filter(f, active);
    }
  }

  // ---------------------------------------------------------------- sorting

  /** The sort orders the select offers; any other value leaves the list as it is. */
  datatype SortOrder = PriceLow | PriceHigh | ByRating | DeliveryTime | Unsorted

  function ParseSortOrder(value: string): (o: SortOrder)
    ensures value == "price_low" ==> o == PriceLow
    ensures value == "price_high" ==> o == PriceHigh
    ensures value == "rating" ==> o == ByRating
    ensures value == "delivery_time" ==> o == DeliveryTime
    ensures o == Unsorted <==>
            value != "price_low" && value != "price_high" && value != "rating" && value != "delivery_time"
  {
    if value == "price_low" then PriceLow
    else if value == "price_high" then PriceHigh
    else if value == "rating" then ByRating
    else if value == "delivery_time" then DeliveryTime
    else Unsorted
  }

  /** Integers with both infinities: `Math.min()` of no values is Infinity. */
  datatype Extended = NegInf | Finite(n: int) | PosInf

  predicate ExtLe(a: Extended, b: Extended) {
    match (a, b)
    case (NegInf, _) => true
    case (_, PosInf) => true
    case (Finite(x), Finite(y)) => x <= y
    case _ => false
  }

  function ExtNeg(a: Extended): Extended {
    match a
    case NegInf => PosInf
    case Finite(x) => Finite(-x)
    case PosInf => NegInf
  }

  /** `Math.min(...xs)`: the least value, or Infinity for no values. */
  function MinOf(xs: seq<int>): (m: Extended)
    ensures m != NegInf
    ensures m == PosInf <==> |xs| == 0
    ensures m.Finite? ==> m.n in xs && forall x :: x in xs ==> m.n <= x
  {
    if |xs| == 0 then PosInf
    else
      var rest := MinOf(xs[1..]);
      assert forall x :: x in xs ==> x == xs[0] || x in xs[1..];
      if rest.Finite? && rest.n < xs[0] then rest else Finite(xs[0])
  }

  function PricesOf(opts: seq<PricingOption>): (r: seq<int>)
    ensures |r| == |opts| && forall k :: 0 <= k < |opts| ==> r[k] == opts[k].price
  {
    seq(|opts|, k requires 0 <= k < |opts| => opts[k].price)
  }

  function TimesOf(opts: seq<PricingOption>): (r: seq<int>)
    ensures |r| == |opts| && forall k :: 0 <= k < |opts| ==> r[k] == opts[k].estimatedTime
  {
    seq(|opts|, k requires 0 <= k < |opts| => opts[k].estimatedTime)
  }

  /** The dish's lowest price across its offers. */
  function MinPrice(item: FoodItem): Extended { MinOf(PricesOf(item.pricingOptions)) }

  /** The dish's shortest estimated delivery time across its offers. */
  function MinTime(item: FoodItem): Extended { MinOf(TimesOf(item.pricingOptions)) }

  /**
   * The key each comparator effectively sorts by, ascending: the orders that
   * put the largest value first sort by the negated value.
   */
  function Rank(order: SortOrder, item: FoodItem): Extended {
    match order
    case PriceLow => MinPrice(item)
    case PriceHigh => ExtNeg(MinPrice(item))
    case ByRating => Finite(-item.rating)
    case DeliveryTime => MinTime(item)
    case Unsorted => Finite(0)
  }

  /** ExtLe is a total order: any two values compare one way or the other. */
  lemma ExtLeTotal(a: Extended, b: Extended)
    ensures ExtLe(a, b) || ExtLe(b, a)
  {
  }

  lemma ExtLeTransitive(a: Extended, b: Extended, c: Extended)
    requires ExtLe(a, b) && ExtLe(b, c)
    ensures ExtLe(a, c)
  {
  }

  ghost predicate SortedByKey<T>(key: T -> Extended, s: seq<T>) {
    forall i, j :: 0 <= i < j < |s| ==> ExtLe(key(s[i]), key(s[j]))
  }

  ghost predicate SortedBy(order: SortOrder, s: seq<FoodItem>) {
    forall i, j :: 0 <= i < j < |s| ==> ExtLe(Rank(order, s[i]), Rank(order, s[j]))
  }

  /**
   * x placed after the last element of s whose key is at most x's: the
   * elements with a larger key, all at the end, move one place right.
   */
  function InsertLast<T>(key: T -> Extended, s: seq<T>, x: T): (r: seq<T>)
    ensures |r| == |s| + 1
  {
    if s == [] then [x]
    else if ExtLe(key(s[|s| - 1]), key(x)) then s + [x]
    else InsertLast(key, s[..|s| - 1], x) + [s[|s| - 1]]
  }

  /** The insertion sort the in-place sort performs: each element in turn inserted after the sorted prefix's equals. */
  function InsertionSort<T>(key: T -> Extended, s: seq<T>): (r: seq<T>)
    ensures |r| == |s|
  {
    if s == [] then [] else InsertLast(key, InsertionSort(key, s[..|s| - 1]), s[|s| - 1])
  }

  /** Where the swaps stop is where InsertLast puts x: after p[..j], before the larger keys p[j..]. */
  lemma {:induction false} InsertLastAt<T>(key: T -> Extended, p: seq<T>, x: T, j: nat)
    requires j <= |p|
    requires j == 0 || ExtLe(key(p[j - 1]), key(x))
    requires forall t :: j <= t < |p| ==> !ExtLe(key(p[t]), key(x))
    ensures InsertLast(key, p, x) == p[..j] + [x] + p[j..]
  {
    if j < |p| {
      var front := p[..|p| - 1];
      assert forall t :: 0 <= t < |front| ==> front[t] == p[t];
      InsertLastAt(key, front, x, j);
      assert p == front + [p[|p| - 1]];
      assert p[j..] == front[j..] + [p[|p| - 1]];
    }
  }

  lemma {:induction false} InsertLastCounts<T>(key: T -> Extended, s: seq<T>, x: T)
    ensures multiset(InsertLast(key, s, x)) == multiset(s) + multiset{x}
  {
    if s != [] && !ExtLe(key(s[|s| - 1]), key(x)) {
      InsertLastCounts(key, s[..|s| - 1], x);
      assert s == s[..|s| - 1] + [s[|s| - 1]];
    }
  }

  lemma {:induction false} InsertLastSorted<T>(key: T -> Extended, s: seq<T>, x: T)
    requires SortedByKey(key, s)
    ensures SortedByKey(key, InsertLast(key, s, x))
  {
    if s != [] && !ExtLe(key(s[|s| - 1]), key(x)) {
      var front := s[..|s| - 1];
      var last := s[|s| - 1];
      var rest := InsertLast(key, front, x);
      InsertLastSorted(key, front, x);
      InsertLastCounts(key, front, x);
      ExtLeTotal(key(last), key(x));
      forall t | 0 <= t < |rest| ensures ExtLe(key(rest[t]), key(last)) {
        assert rest[t] in multiset(rest);
        if rest[t] != x {
          assert rest[t] in front;
          var k :| 0 <= k < |front| && front[k] == rest[t];
          assert s[k] == front[k];
        }
      }
    }
  }

  /** Whether an element's key is k. */
  function HasKey<T>(key: T -> Extended, k: Extended): T -> bool {
    (y: T) => key(y) == k
  }

  /** Inserting x keeps, among the elements with key k, the order of s, with x (if its key is k) last. */
  lemma {:induction false} InsertLastStable<T>(key: T -> Extended, s: seq<T>, x: T, k: Extended)
    ensures Filter(HasKey(key, k), InsertLast(key, s, x)) ==
            Filter(HasKey(key, k), s) + Filter(HasKey(key, k), [x])
  {
    var p := HasKey(key, k);
    if s == [] {
    } else if ExtLe(key(s[|s| - 1]), key(x)) {
      FilterDistributes(p, s, [x]);
    } else {
      var front := s[..|s| - 1];
      var last := s[|s| - 1];
      var inserted := InsertLast(key, front, x);
      assert InsertLast(key, s, x) == inserted + [last];
      InsertLastStable(key, front, x, k);
      FilterDistributes(p, inserted, [last]);
      assert s == front + [last];
      FilterDistributes(p, front, [last]);
      if key(x) == k {
        assert Filter(p, [last]) == [];
      } else {
        assert Filter(p, [x]) == [];
      }
    }
  }

  lemma {:induction false} InsertionSortSorted<T>(key: T -> Extended, s: seq<T>)
    ensures SortedByKey(key, InsertionSort(key, s))
  {
    if s != [] {
      InsertionSortSorted(key, s[..|s| - 1]);
      InsertLastSorted(key, InsertionSort(key, s[..|s| - 1]), s[|s| - 1]);
    }
  }

  lemma {:induction false} InsertionSortCounts<T>(key: T -> Extended, s: seq<T>)
    ensures multiset(InsertionSort(key, s)) == multiset(s)
  {
    if s != [] {
      InsertionSortCounts(key, s[..|s| - 1]);
      InsertLastCounts(key, InsertionSort(key, s[..|s| - 1]), s[|s| - 1]);
      assert s == s[..|s| - 1] + [s[|s| - 1]];
    }
  }

  /** The sort is stable: the elements sharing any one key keep their relative order. */
  lemma {:induction false} InsertionSortStable<T>(key: T -> Extended, s: seq<T>, k: Extended)
    ensures Filter(HasKey(key, k), InsertionSort(key, s)) == Filter(HasKey(key, k), s)
  {
    if s != [] {
      var front := s[..|s| - 1];
      InsertionSortStable(key, front, k);
      InsertLastStable(key, InsertionSort(key, front), s[|s| - 1], k);
      assert s == front + [s[|s| - 1]];
      FilterDistributes(HasKey(key, k), front, [s[|s| - 1]]);
    }
  }

  method Swap<T>(a: array<T>, i: nat, j: nat)
    requires i < a.Length && j < a.Length
    modifies a
    ensures a[i] == old(a[j]) && a[j] == old(a[i])
    ensures forall k :: 0 <= k < a.Length && k != i && k != j ==> a[k] == old(a[k])
  {
    a[i], a[j] := a[j], a[i];
  }

  /** One insertion step: moves a[i] left past every element whose key is larger, leaving the rest alone. */
  method InsertIntoSorted<T>(a: array<T>, key: T -> Extended, i: nat)
    requires i < a.Length
    modifies a
    ensures a[..i + 1] == InsertLast(key, old(a[..i]), old(a[i]))
    ensures a[i + 1..] == old(a[i + 1..])
  {
    ghost var p := a[..i];
    ghost var x := a[i];
    var j := i;
    while j > 0 && !ExtLe(key(a[j - 1]), key(a[j]))
      invariant 0 <= j <= i
      invariant a[j] == x
      invariant forall t :: 0 <= t < j ==> a[t] == p[t]
      invariant forall t :: j < t <= i ==> a[t] == p[t - 1]
      invariant forall t :: j <= t < i ==> !ExtLe(key(p[t]), key(x))
      invariant forall t :: i < t < a.Length ==> a[t] == old(a[t])
    {
      Swap(a, j - 1, j);
      j := j - 1;
    }
    InsertLastAt(key, p, x, j);
    assert a[..i + 1] == p[..j] + [x] + p[j..];
    assert a[i + 1..] == old(a[i + 1..]);
  }

  /** Sorts the array in place by the key: it ends holding the insertion sort of what it held. */
  method SortByKey<T>(a: array<T>, key: T -> Extended)
    modifies a
    ensures a[..] == InsertionSort(key, old(a[..]))
  {
    ghost var s := a[..];
    var i := 0;
    while i < a.Length
      invariant 0 <= i <= a.Length
      invariant a[..i] == InsertionSort(key, s[..i])
      invariant a[i..] == s[i..]
    {
      ghost var before := a[..];
      assert before[i] == s[i] && before[..i] == a[..i];
      InsertIntoSorted(a, key, i);
      assert s[..i + 1][..i] == s[..i];
      assert a[i + 1..] == before[i + 1..] == s[i + 1..];
      i := i + 1;
    }
    assert a[..a.Length] == a[..] && s[..a.Length] == s;
  }

  /** The key the order's comparator sorts dishes by. */
  function RankKey(order: SortOrder): FoodItem -> Extended {
    (x: FoodItem) => Rank(order, x)
  }

  /** The dish list as the order's stable sort leaves it. */
  function SortDishes(order: SortOrder, s: seq<FoodItem>): seq<FoodItem> {
    InsertionSort(RankKey(order), s)
  }

  /** The sorted dishes are ordered by rank and are a permutation of the list. */
  lemma SortDishesSortedPermutation(order: SortOrder, s: seq<FoodItem>)
    ensures SortedBy(order, SortDishes(order, s))
    ensures multiset(SortDishes(order, s)) == multiset(s)
  {
    InsertionSortSorted(RankKey(order), s);
    InsertionSortCounts(RankKey(order), s);
  }

  /** Whether a dish has rank k under the order. */
  function RanksAs(order: SortOrder, k: Extended): FoodItem -> bool {
    (x: FoodItem) => Rank(order, x) == k
  }

  /** Dishes that rank equally keep the order they had before the sort. */
  lemma SortDishesStable(order: SortOrder, s: seq<FoodItem>, k: Extended)
    ensures Filter(RanksAs(order, k), SortDishes(order, s)) == Filter(RanksAs(order, k), s)
  {
    var key := RankKey(order);
    var p := HasKey(key, k);
    var q := RanksAs(order, k);
    var sorted := InsertionSort(key, s);
    InsertionSortStable(key, s, k);
    assert forall x :: p(x) == q(x);
    FilterCongruent(p, q, s);
    FilterCongruent(p, q, sorted);
  }

  /** Sorts the array in place by the order's rank, stably. */
  method SortInPlace(a: array<FoodItem>, order: SortOrder)
    modifies a
    ensures a[..] == SortDishes(order, old(a[..]))
  {
    SortByKey(a, RankKey(order));
  }

  // ---------------------------------------------------------------- page state

  /** The home page's state. */
  class IndexPage {
    /** The fixture lists every search and filter starts from. */
    const allFood: seq<FoodItem>
    const allRestaurants: seq<Restaurant>
    var loading: bool
    var searchQuery: string
    var sortOption: string
    var activePlatforms: seq<string>
    var filteredFoodItems: seq<FoodItem>
    var filteredRestaurants: seq<Restaurant>

    /** Some platform is always selected. */
    ghost predicate Valid()
      reads this
    {
      |activePlatforms| > 0
    }

    /** The shown lists are drawn from the fixture, each entry at most as often as it occurs there. */
    ghost predicate DrawnFromFixture()
      reads this
    {
      multiset(filteredFoodItems) <= multiset(allFood) &&
      multiset(filteredRestaurants) <= multiset(allRestaurants)
    }

    constructor ()
      ensures Valid()
      ensures loading && searchQuery == "" && sortOption == "price_low"
      ensures activePlatforms == Platforms
      ensures allFood == FoodItems && allRestaurants == Restaurants
      ensures filteredFoodItems == allFood && filteredRestaurants == allRestaurants
      ensures DrawnFromFixture()
    {
      allFood := FoodItems;
      allRestaurants := Restaurants;
      loading := true;
      searchQuery := "";
      sortOption := "price_low";
      activePlatforms := Platforms;
      filteredFoodItems := allFood;
      filteredRestaurants := allRestaurants;
    }

    /** The initial simulated load finishing. */
    method FinishLoading()
      modifies this`loading
      ensures !loading
    {
      loading := false;
    }

    /** A search always starts again from the full fixture lists. */
    method HandleSearch(query: string)
      requires Valid()
      modifies this
      ensures Valid()
      ensures DrawnFromFixture()
      ensures searchQuery == query && !loading
      ensures filteredFoodItems == SearchFood(allFood, query)
      ensures filteredRestaurants == SearchRestaurants(allRestaurants, query)
      ensures activePlatforms == old(activePlatforms) && sortOption == old(sortOption)
    {
      searchQuery := query;
      loading := true;
      FilterSubMultiset((x: FoodItem) => FoodMatches(x, query), allFood);
      FilterSubMultiset((x: Restaurant) => RestaurantMatches(x, query), allRestaurants);
      filteredFoodItems := SearchFood(allFood, query);
      filteredRestaurants := SearchRestaurants(allRestaurants, query);
      loading := false;
    }

    /** Sorts a copy of the current dish list and shows it; restaurants are not sorted. */
    method HandleSortChange(value: string)
      requires Valid()
      modifies this
      ensures Valid()
      ensures old(DrawnFromFixture()) ==> DrawnFromFixture()
      ensures sortOption == value && !loading
      ensures multiset(filteredFoodItems) == old(multiset(filteredFoodItems))
      ensures ParseSortOrder(value) == Unsorted ==> filteredFoodItems == old(filteredFoodItems)
      ensures ParseSortOrder(value) != Unsorted ==>
                filteredFoodItems == SortDishes(ParseSortOrder(value), old(filteredFoodItems))
      ensures value == "price_low" ==> forall i, j :: 0 <= i < j < |filteredFoodItems| ==>
                ExtLe(MinPrice(filteredFoodItems[i]), MinPrice(filteredFoodItems[j]))
      ensures value == "price_high" ==> forall i, j :: 0 <= i < j < |filteredFoodItems| ==>
                ExtLe(MinPrice(filteredFoodItems[j]), MinPrice(filteredFoodItems[i]))
      ensures value == "rating" ==> forall i, j :: 0 <= i < j < |filteredFoodItems| ==>
                filteredFoodItems[j].rating <= filteredFoodItems[i].rating
      ensures value == "delivery_time" ==> forall i, j :: 0 <= i < j < |filteredFoodItems| ==>
                ExtLe(MinTime(filteredFoodItems[i]), MinTime(filteredFoodItems[j]))
      ensures searchQuery == old(searchQuery) && activePlatforms == old(activePlatforms)
      ensures filteredRestaurants == old(filteredRestaurants)
    {
      sortOption := value;
      loading := true;
      var order := ParseSortOrder(value);
      var current := filteredFoodItems;
      var sorted := new FoodItem[|current|](k requires 0 <= k < |current| => current[k]);
      assert sorted[..] == current;
      if order != Unsorted {
        SortInPlace(sorted, order);
        SortDishesSortedPermutation(order, current);
      }
      filteredFoodItems := sorted[..];
      NegationReversesOrder(order, filteredFoodItems);
      loading := false;
    }

    /**
     * Toggles the platform; when that would leave none selected, nothing
     * changes. Otherwise both lists are filtered again from the full fixture.
     */
    method HandleFilterChange(platform: string)
      requires Valid()
      modifies this
      ensures Valid()
      ensures !loading
      ensures old(DrawnFromFixture()) ==> DrawnFromFixture()
      ensures activePlatforms == NextActivePlatforms(old(activePlatforms), platform)
      ensures |TogglePlatform(old(activePlatforms), platform)| == 0 ==>
                filteredFoodItems == old(filteredFoodItems) && filteredRestaurants == old(filteredRestaurants)
      ensures |TogglePlatform(old(activePlatforms), platform)| > 0 ==>
                filteredFoodItems == FilterFoodByPlatform(allFood, activePlatforms) &&
                filteredRestaurants == FilterRestaurantsByPlatform(allRestaurants, activePlatforms)
      ensures searchQuery == old(searchQuery) && sortOption == old(sortOption)
    {
      loading := true;
      var updated := TogglePlatform(activePlatforms, platform);
      if |updated| == 0 {
        loading := false;
        return;
      }
      activePlatforms := updated;
      FilterSubMultiset((x: FoodItem) => OfferedOnActive(x, updated), allFood);
      FilterSubMultiset((x: Restaurant) => ListedOnActive(x, updated), allRestaurants);
      filteredFoodItems := FilterFoodByPlatform(allFood, updated);
      filteredRestaurants := FilterRestaurantsByPlatform(allRestaurants, updated);
      loading := false;
    }
  }

  /** What sorting by each rank means for the keys the comparators read. */
  lemma NegationReversesOrder(order: SortOrder, s: seq<FoodItem>)
    requires order != Unsorted ==> SortedBy(order, s)
    ensures order == PriceLow ==> forall i, j :: 0 <= i < j < |s| ==> ExtLe(MinPrice(s[i]), MinPrice(s[j]))
    ensures order == PriceHigh ==> forall i, j :: 0 <= i < j < |s| ==> ExtLe(MinPrice(s[j]), MinPrice(s[i]))
    ensures order == ByRating ==> forall i, j :: 0 <= i < j < |s| ==> s[j].rating <= s[i].rating
    ensures order == DeliveryTime ==> forall i, j :: 0 <= i < j < |s| ==> ExtLe(MinTime(s[i]), MinTime(s[j]))
  {
    if order == PriceHigh {
      forall i, j | 0 <= i < j < |s| ensures ExtLe(MinPrice(s[j]), MinPrice(s[i])) {
        assert ExtLe(Rank(order, s[i]), Rank(order, s[j]));
      }
    }
    if order == ByRating {
      forall i, j | 0 <= i < j < |s| ensures s[j].rating <= s[i].rating {
        assert ExtLe(Rank(order, s[i]), Rank(order, s[j]));
      }
    }
  }
}
