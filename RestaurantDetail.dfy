/**
 * The restaurant page: the restaurant the route names, its dishes, and
 * the links that send the visitor to a delivery platform's search.
 * `encodeURIComponent` is the parameter `encode`.
 */
module RestaurantDetail {
  import opened Wrappers
  import opened MockData
  import opened Lists
  import FoodCard

  /** `restaurants.find(r => r.id === id)`. */
  function FindRestaurant(rs: seq<Restaurant>, id: string): (r: Option<Restaurant>)
    ensures r.None? <==> forall k :: 0 <= k < |rs| ==> rs[k].id != id
    ensures r.Some? ==> exists i :: 0 <= i < |rs| && rs[i] == r.value && r.value.id == id &&
                                    forall k :: 0 <= k < i ==> rs[k].id != id
  {
    FindFirst((x: Restaurant) => x.id == id, rs)
  }

  /** With distinct ids, every restaurant is found by its own id. */
  lemma FindsEveryRestaurant(rs: seq<Restaurant>, i: nat)
    requires DistinctRestaurantIds(rs) && i < |rs|
    ensures FindRestaurant(rs, rs[i].id) == Some(rs[i])
  {
    var r := FindRestaurant(rs, rs[i].id);
    var j :| 0 <= j < |rs| && rs[j] == r.value && r.value.id == rs[i].id &&
             forall k :: 0 <= k < j ==> rs[k].id != rs[i].id;
    if j < i {
      assert rs[j].id != rs[i].id;
    }
  }

  /** Whether a dish belongs to the restaurant; with no restaurant the name is undefined and nothing does. */
  predicate OfRestaurant(x: FoodItem, r: Option<Restaurant>) {
    r.Some? && x.restaurant == r.value.name
  }

  /** `foodItems.filter(item => item.restaurant === restaurant?.name)`, in the fixture's order. */
  function RelatedItems(items: seq<FoodItem>, r: Option<Restaurant>): (res: seq<FoodItem>)
    ensures IsSubsequence(res, items)
    ensures r.None? ==> res == []
  {
    var p := (x: FoodItem) => OfRestaurant(x, r);
    FilterIsSubsequence(p, items);
    FilterDropsAll(p, items);
    Filter(p, items)
  }

  /** A dish is related exactly when it is in the list and belongs to the restaurant. */
  lemma RelatedItemsMembership(items: seq<FoodItem>, r: Option<Restaurant>, x: FoodItem)
    ensures x in RelatedItems(items, r) <==> x in items && OfRestaurant(x, r)
  {
    FilterMembership((y: FoodItem) => OfRestaurant(y, r), items, x);
  }

  /** Each dish of the restaurant is kept as often as it occurs, and no other dish is. */
  lemma RelatedItemsCounts(items: seq<FoodItem>, r: Restaurant)
    ensures forall x :: multiset(RelatedItems(items, Some(r)))[x] ==
                        if x.restaurant == r.name then multiset(items)[x] else 0
  {
    FilterCounts((x: FoodItem) => OfRestaurant(x, Some(r)), items);
  }

  /** `itemName || restaurant?.name || ''`: the empty string counts as absent. */
  function SearchQuery(itemName: string, r: Option<Restaurant>): (q: string)
    ensures itemName != "" ==> q == itemName
    ensures itemName == "" && r.Some? ==> q == r.value.name
    ensures itemName == "" && r.None? ==> q == ""
  {
    if itemName != "" then itemName
    else if r.Some? && r.value.name != "" then r.value.name
    else ""
  }

  const SwiggyPrefix: string := "https://www.swiggy.com/search?query="
  const ZomatoPrefix: string := "https://www.zomato.com/search?q="
  const UberEatsPrefix: string := "https://www.ubereats.com/search?q="

  /** The search-page URL prefix of each of the three platforms; no other platform has one. */
  function UrlPrefix(platform: string): (p: Option<string>)
    ensures p.Some? <==> platform in Platforms
  {
    if platform == "Swiggy" then Some(SwiggyPrefix)
    else if platform == "Zomato" then Some(ZomatoPrefix)
    else if platform == "UberEats" then Some(UberEatsPrefix)
    else None
  }

  /** The URL `handleOrderNow` opens: the platform's prefix followed by the encoded query. */
  function OrderUrl(platform: string, query: string, encode: string -> string): (url: Option<string>)
    ensures url.Some? <==> platform in Platforms
    ensures url.Some? ==> UrlPrefix(platform).value <= url.value &&
                          url.value[|UrlPrefix(platform).value|..] == encode(query)
  {
    match UrlPrefix(platform)
    case None => None
    case Some(prefix) => Some(prefix + encode(query))
  }

  /** Reads an order URL back: the platform whose prefix it starts with, and the encoded query after it. */
  function ParseOrderUrl(url: string): Option<(string, string)> {
    if SwiggyPrefix <= url then Some(("Swiggy", url[|SwiggyPrefix|..]))
    else if ZomatoPrefix <= url then Some(("Zomato", url[|ZomatoPrefix|..]))
    else if UberEatsPrefix <= url then Some(("UberEats", url[|UberEatsPrefix|..]))
    else None
  }

  /** An order URL determines both the platform and the encoded query. */
  lemma OrderUrlRoundTrip(platform: string, query: string, encode: string -> string)
    requires platform in Platforms
    ensures ParseOrderUrl(OrderUrl(platform, query, encode).value) == Some((platform, encode(query)))
  {
    var url := OrderUrl(platform, query, encode).value;
    assert url[12] == UrlPrefix(platform).value[12];
    assert SwiggyPrefix[12] == 's' && ZomatoPrefix[12] == 'z' && UberEatsPrefix[12] == 'u';
  }

  /**
   * A menu row's "Order" button: the best offer's platform and the dish's
   * name; None when the dish has no offer or the platform has no URL.
   */
  function RowOrderUrl(item: FoodItem, r: Option<Restaurant>, encode: string -> string): (url: Option<string>)
    ensures url.Some? <==> FoodCard.CheapestOption(item.pricingOptions).Some? &&
                           FoodCard.CheapestOption(item.pricingOptions).value.platform in Platforms
    ensures url.Some? ==>
              ParseOrderUrl(url.value) ==
              Some((FoodCard.CheapestOption(item.pricingOptions).value.platform, encode(SearchQuery(item.name, r))))
    ensures url.Some? ==> exists o :: o in item.pricingOptions && o.platform in Platforms &&
                                      url == OrderUrl(o.platform, SearchQuery(item.name, r), encode)
  {
    match FoodCard.CheapestOption(item.pricingOptions)
    case None => None
    case Some(best) =>
      if best.platform in Platforms then
        OrderUrlRoundTrip(best.platform, SearchQuery(item.name, r), encode);
        OrderUrl(best.platform, SearchQuery(item.name, r), encode)
      else
        OrderUrl(best.platform, SearchQuery(item.name, r), encode)
  }

  /** For a dish on known platforms, the row opens the best offer's platform searching for the dish. */
  lemma RowOrderUrlForKnownPlatforms(item: FoodItem, r: Option<Restaurant>, encode: string -> string)
    requires |item.pricingOptions| > 0 && item.name != ""
    requires forall o :: o in item.pricingOptions ==> o.platform in Platforms
    ensures RowOrderUrl(item, r, encode).Some?
    ensures ParseOrderUrl(RowOrderUrl(item, r, encode).value) ==
            Some((FoodCard.CheapestOption(item.pricingOptions).value.platform, encode(item.name)))
  {
    var best := FoodCard.CheapestOption(item.pricingOptions).value;
    OrderUrlRoundTrip(best.platform, item.name, encode);
  }

  /** An "Available on" button passes only the platform, so the query is the restaurant's name. */
  lemma AvailableOnSearchesRestaurant(platform: string, r: Restaurant, encode: string -> string)
    requires platform in r.platforms && PlatformsWellFormed(r.platforms)
    ensures OrderUrl(platform, SearchQuery("", Some(r)), encode).Some?
    ensures ParseOrderUrl(OrderUrl(platform, SearchQuery("", Some(r)), encode).value) ==
            Some((platform, encode(r.name)))
  {
    OrderUrlRoundTrip(platform, r.name, encode);
  }

  /** The restaurant page's state. */
  class RestaurantDetailPage {
    /** The fixture lists the page looks things up in. */
    const allRestaurants: seq<Restaurant>
    const allFood: seq<FoodItem>
    var restaurant: Option<Restaurant>
    var relatedItems: seq<FoodItem>

    /** Opening the page for a route id: both values are computed from the initial lookup. */
    constructor (id: string)
      ensures allRestaurants == Restaurants && allFood == FoodItems
      ensures restaurant == FindRestaurant(allRestaurants, id)
      ensures relatedItems == RelatedItems(allFood, restaurant)
    {
      allRestaurants := Restaurants;
      allFood := FoodItems;
      new;
      restaurant := FindRestaurant(allRestaurants, id);
      relatedItems := RelatedItems(allFood, restaurant);
    }

    /** The effect that runs when the route id changes. */
    method OnRouteChange(id: string)
      modifies this`restaurant
      ensures restaurant == FindRestaurant(allRestaurants, id)
    {
      restaurant := FindRestaurant(allRestaurants, id);
    }

    /** The effect that runs when the restaurant changes: only a found restaurant replaces the dishes. */
    method OnRestaurantChange()
      modifies this`relatedItems
      ensures restaurant.Some? ==> relatedItems == RelatedItems(allFood, restaurant)
      ensures restaurant.None? ==> relatedItems == old(relatedItems)
    {
      if restaurant.Some? {
        relatedItems := RelatedItems(allFood, restaurant);
      }
    }

    /** `handleOrderNow(platform, itemName)`: the URL it opens, if the platform has one. */
    method HandleOrderNow(platform: string, itemName: string, encode: string -> string)
      returns (url: Option<string>)
      ensures url.Some? <==> platform in Platforms
      ensures url.Some? ==> ParseOrderUrl(url.value) == Some((platform, encode(SearchQuery(itemName, restaurant))))
    {
      url := OrderUrl(platform, SearchQuery(itemName, restaurant), encode);
      if url.Some? {
        OrderUrlRoundTrip(platform, SearchQuery(itemName, restaurant), encode);
      }
    }
  }
}
