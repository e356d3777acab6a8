# A verified model of a food price-comparison front end

The application compares the price of a dish across three delivery
platforms (Swiggy, Zomato, UberEats). The core is small:

- a fixture catalogue of six dishes and six restaurants;
- a hook that simulates live price changes for a logged-in visitor;
- a home page that searches, filters by platform and sorts;
- a card that picks the cheapest offer;
- a restaurant page that looks a restaurant up, lists its dishes and builds the links to each platform's search;
- a search box that trims what it submits.

The model has one module per source file, plus three library modules:

| module | models |
|---|---|
| `Wrappers` | `Option` |
| `Lists` | JavaScript's `Array.prototype.filter` and `find`, with their laws |
| `Strings` | `toLowerCase`, `includes` and `trim` |
| `MockData` | `src/data/mockData.ts`: the types and the fixture values |
| `RealTimePrices` | `src/hooks/use-real-time-prices.tsx` |
| `Index` | `src/pages/Index.tsx` |
| `FoodCard` | `src/components/FoodCard.tsx` |
| `RestaurantDetail` | `src/pages/RestaurantDetail.tsx` |
| `SearchBar` | `src/components/SearchBar.tsx` |

Conventions:

- **Units.** Money is integer cents, ratings are integer tenths, delivery times are integer minutes and clock readings are integer milliseconds.
- **Random draws.** Each `Math.random()` result is a `real` parameter in [0, 1). An index drawn from it is `Floor(draw * n)`, as in the source. The price move of a tick is a parameter in cents, between -200 and 200.
- **`Math.min`.** `Math.min` of no values is Infinity, so minima live in `Index.Extended`, which has both infinities. The "highest first" comparators sort by the negated key.
- **State.** State that the source updates in place is a class:
  - `RealTimePrices.PriceFeed` holds the hook's state;
  - `Index.IndexPage`, `RestaurantDetail.RestaurantDetailPage` and `SearchBar.SearchBarForm` hold the React state of those components.

  Copy-then-sort on the home page is an insertion sort on a fresh `array`.
- **Pure expressions.** The `filter`/`some`/`includes` queries, the update `map`s, the history push and the URL choice are functions.
- **Immutability.** Dafny sequences are values. So the offer list the card sorts is visibly never reordered: `CheapestOption` receives it and returns only the chosen offer.
- **No platform gate on ticks.** `src/pages/Settings.tsx:16` reads `connectedApps`, `connectApp` and `disconnectApp` from the hook, but the hook never returns them (`src/hooks/use-real-time-prices.tsx:107`), and a tick picks any offer of the chosen dish (line 53). So `Tick` has no connected-platform gate.

## Model

| member | source | states |
|---|---|---|
| MockData.FoodIdsDistinct | src/data/mockData.ts:31-212 | the six dishes have pairwise distinct ids |
| MockData.FoodOffersWellFormed | src/data/mockData.ts:31-212 | every dish has at least one offer and no platform is offered twice for one dish |
| MockData.AmountsPositive | src/data/mockData.ts:31-212 | every price and estimated time is positive and every delivery fee is at least zero |
| MockData.RestaurantIdsDistinct | src/data/mockData.ts:215-276 | the six restaurants have pairwise distinct ids |
| MockData.DishesNameKnownRestaurants | src/data/mockData.ts:31-276 | every dish's restaurant field is the name of some restaurant in the list |
| MockData.RestaurantPlatformsKnown | src/data/mockData.ts:215-276 | every restaurant lists a non-empty set of platforms, all among the three known ones |
| MockData.OfferPlatformsKnown | src/data/mockData.ts:31-212 | every offer is on one of the three known platforms |
| Lists.Filter | src/pages/Index.tsx:41-45 | `filter` returns no more elements than it was given, each from the input and matching |
| Lists.FindFirst | src/pages/RestaurantDetail.tsx:16 | `find` is None exactly when no element matches; otherwise it is the matching element with no match before it |
| Lists.FilterIsSubsequence | src/pages/Index.tsx:41-45 | `filter` keeps elements in their original order |
| Lists.FilterCounts | src/pages/Index.tsx:41-45 | `filter` keeps each matching element as often as it occurs and drops every other one |
| Lists.FilterMembership | src/pages/Index.tsx:41-45 | an element is in the result exactly when it is in the input and matches |
| Lists.FilterSubMultiset | src/pages/Index.tsx:41-51 | the filtered list is a sub-multiset of the input |
| Lists.FilterCongruent | src/pages/Index.tsx:41-51 | predicates that agree on the list filter it identically |
| Lists.FilterKeepsAll | src/pages/Index.tsx:135-146 | a predicate that holds everywhere keeps the whole list |
| Lists.FilterDropsAll | src/pages/RestaurantDetail.tsx:17 | a predicate that holds nowhere keeps nothing |
| Lists.FilterDistributes | src/pages/Index.tsx:114-116 | filtering a concatenation is concatenating the filtered parts |
| Lists.FilterIdempotent | src/pages/Index.tsx:135-146 | filtering twice by the same predicate is filtering once |
| Strings.LowerChar | src/pages/Index.tsx:42 | the result is never an upper-case letter; an upper-case letter moves by 32 code points; any other character is kept |
| Strings.ToLower | src/pages/Index.tsx:42 | same length, every character lower-cased |
| Strings.ToLowerIdempotent | src/pages/Index.tsx:42 | lower-casing twice is lower-casing once |
| Strings.Contains | src/pages/Index.tsx:42-50 | `includes`: the needle occurs as a contiguous block of the text |
| Strings.IsWhiteSpace | src/components/SearchBar.tsx:16 | the characters `trim` removes: the ECMAScript white space and line terminators |
| Strings.TrimStart | src/components/SearchBar.tsx:16 | the result is a suffix of the input, only white space was removed, and it does not start with white space |
| Strings.TrimEnd | src/components/SearchBar.tsx:16 | the result is a prefix of the input, only white space was removed, and it does not end with white space |
| Strings.Trim | src/components/SearchBar.tsx:16-17 | the result is a contiguous block of the input, with only white space on either side of it, and neither starts nor ends with white space |
| Strings.TrimEmptyIff | src/components/SearchBar.tsx:16 | trim yields the empty string exactly when the input is all white space |
| Strings.TrimIdempotent | src/components/SearchBar.tsx:17 | trimming a trimmed string changes nothing |
| RealTimePrices.SessionAccepted | src/hooks/use-real-time-prices.tsx:24-28 | a stored session is accepted when it is flagged logged in and less than 24 hours old |
| RealTimePrices.SessionAcceptedInHours | src/hooks/use-real-time-prices.tsx:24-28 | the integer-millisecond test agrees with the hook's test on elapsed hours below 24 as a real number |
| RealTimePrices.ExpiredStaysExpired | src/hooks/use-real-time-prices.tsx:28 | a session rejected now is rejected at every later time |
| RealTimePrices.DrawIndex | src/hooks/use-real-time-prices.tsx:48 | `Math.floor(Math.random() * n)` is below n for a positive n, and 0 for an empty list |
| RealTimePrices.NewPrice | src/hooks/use-real-time-prices.tsx:59-61 | the new price is at least 0.99, at least the old price plus the change, and equal to one of the two |
| RealTimePrices.DiscountDrawn | src/hooks/use-real-time-prices.tsx:64 | a tick carries a discount exactly when its draw exceeds 0.8 |
| RealTimePrices.DiscountCode | src/hooks/use-real-time-prices.tsx:111-117 | the code is always one of the ten listed codes |
| RealTimePrices.UpdateOffers | src/hooks/use-real-time-prices.tsx:83-91 | same number of offers; platform, fee and time kept; offers on another platform untouched; offers on the update's platform take its price and its code, which clears the code when there is none |
| RealTimePrices.ApplyUpdate | src/hooks/use-real-time-prices.tsx:78-96 | same length and order; a dish with another id is unchanged; a dish with the id differs only in its offers, which are updated as above |
| RealTimePrices.ApplyUpdateIdempotent | src/hooks/use-real-time-prices.tsx:78-96 | applying the same update twice is applying it once |
| RealTimePrices.UpdateTakesEffect | src/hooks/use-real-time-prices.tsx:83-89 | every offer of the chosen dish on the chosen platform carries the new price and code afterwards |
| RealTimePrices.ApplyUpdateKeepsFloor | src/hooks/use-real-time-prices.tsx:61-96 | an update priced at or above 0.99 keeps every price of the list at or above 0.99 |
| RealTimePrices.FixturePricesAboveFloor | src/data/mockData.ts:31-212 | the fixture prices start at or above 0.99, so the floor holds from the start |
| RealTimePrices.PushUpdate | src/hooks/use-real-time-prices.tsx:100 | the history holds at most five updates; its head is the new update and its tail is a prefix of the old history |
| RealTimePrices.HistoryKeepsLatest | src/hooks/use-real-time-prices.tsx:100 | after any sequence of pushes the history holds the five (or fewer) latest updates, newest first |
| RealTimePrices.PriceFeed.constructor | src/hooks/use-real-time-prices.tsx:14-16 | the hook starts with the given prices, no history and logged out |
| RealTimePrices.PriceFeed.ResetPrices | src/hooks/use-real-time-prices.tsx:38-40 | the price list becomes the new initial list |
| RealTimePrices.PriceFeed.CheckSession | src/hooks/use-real-time-prices.tsx:19-35 | with no record nothing changes; an accepted session logs in and keeps the record; any other record is removed and the login flag stays as it was |
| RealTimePrices.PriceFeed.Tick | src/hooks/use-real-time-prices.tsx:44-100 | it does nothing exactly when logged out, when the list is empty or when the chosen dish has no offer; otherwise it records the chosen dish's id, the chosen offer's platform and old price, the clamped new price and the drawn discount, applies the update and pushes it; the history cap and the price floor of recorded updates are kept |
| RealTimePrices.EventPlatformOffered | src/hooks/use-real-time-prices.tsx:53-54 | the update's platform is still offered by the dish after it is applied |
| Index.FoodMatches | src/pages/Index.tsx:41-45 | a dish matches when its name, restaurant or cuisine contains the lower-cased query, lower-cased |
| Index.RestaurantMatches | src/pages/Index.tsx:48-51 | a restaurant matches when its name or one of its cuisines contains the lower-cased query, lower-cased |
| Index.SearchFood | src/pages/Index.tsx:41-45 | the dishes whose name, restaurant or cuisine contains the query ignoring case, in their original order, and no others |
| Index.SearchRestaurants | src/pages/Index.tsx:48-51 | the restaurants whose name or one of whose cuisines contains the query ignoring case, in their original order, and no others |
| Index.SearchFoodCounts | src/pages/Index.tsx:41-45 | each matching dish is kept exactly as often as it occurs |
| Index.SearchRestaurantsCounts | src/pages/Index.tsx:48-51 | each matching restaurant is kept exactly as often as it occurs |
| Index.SearchIgnoresCase | src/pages/Index.tsx:42-50 | queries that lower-case alike give the same results |
| Index.EmptySearchKeepsAll | src/pages/Index.tsx:41-51 | the empty query keeps both whole lists |
| Index.OfferedOnActive | src/pages/Index.tsx:136-138 | a dish passes when some offer's platform is active |
| Index.ListedOnActive | src/pages/Index.tsx:143-145 | a restaurant passes when some platform it lists is active |
| Index.FilterFoodByPlatform | src/pages/Index.tsx:135-139 | keeps, in order, exactly the dishes with an offer on an active platform |
| Index.FilterRestaurantsByPlatform | src/pages/Index.tsx:142-146 | keeps, in order, exactly the restaurants listing an active platform |
| Index.FilterFoodByPlatformCounts | src/pages/Index.tsx:135-139 | each dish offered on an active platform is kept as often as it occurs, and no other dish is |
| Index.FilterRestaurantsByPlatformCounts | src/pages/Index.tsx:142-146 | each restaurant listing an active platform is kept as often as it occurs, and no other restaurant is |
| Index.AllPlatformsShowEverything | src/pages/Index.tsx:19-21 | with the initial three platforms active, the filters keep the whole fixture |
| Index.PlatformFilterIdempotent | src/pages/Index.tsx:135-146 | filtering by platform twice is filtering once |
| Index.TogglePlatform | src/pages/Index.tsx:113-117 | an inactive platform is appended at the end; an active one is dropped and nothing new is added |
| Index.NextActivePlatforms | src/pages/Index.tsx:112-130 | the new selection is never empty; it is the toggled selection when that is non-empty, and the old selection otherwise |
| Index.ToggleRemoves | src/pages/Index.tsx:113-114 | toggling an active platform drops it and keeps all the others in their order |
| Index.ToggleTwiceRestores | src/pages/Index.tsx:113-117 | toggling an inactive platform on and off again restores the selection |
| Index.ToggleRefusedIff | src/pages/Index.tsx:120 | toggling is refused exactly when the selection holds only that platform |
| Index.ParseSortOrder | src/pages/Index.tsx:73-99 | each of the four known values selects its own order, and any other value selects no sorting |
| Index.MinPrice | src/pages/Index.tsx:76-77 | `Math.min` of the prices of the dish's offers |
| Index.MinTime | src/pages/Index.tsx:93-94 | `Math.min` of the estimated times of the dish's offers |
| Index.Rank | src/pages/Index.tsx:75-96 | the key each comparator sorts by ascending: the minimum price, the negated minimum price, the negated rating, the minimum time; a constant for no sorting |
| Index.MinOf | src/pages/Index.tsx:76-77 | `Math.min` is Infinity for no values; otherwise it is an element no greater than any other |
| Index.InsertLast | src/pages/Index.tsx:75-96 | one insertion step yields exactly one more element; where the element lands is stated by `Index.InsertLastAt` |
| Index.InsertionSort | src/pages/Index.tsx:75-96 | the stable sort of a list by a key keeps its length |
| Index.InsertLastAt | src/pages/Index.tsx:75-96 | when the element's key is not below that of the element at j-1 and is below the keys of every element from j on, it is inserted at position j |
| Index.InsertLastCounts | src/pages/Index.tsx:75-96 | inserting adds exactly the element to the multiset |
| Index.InsertLastSorted | src/pages/Index.tsx:75-96 | inserting into a list sorted by the key keeps it sorted |
| Index.InsertLastStable | src/pages/Index.tsx:75-96 | among elements sharing a key, inserting keeps their order and puts the new element last |
| Index.InsertionSortSorted | src/pages/Index.tsx:75-96 | the result is sorted by the key |
| Index.InsertionSortCounts | src/pages/Index.tsx:75-96 | the result is a permutation of the input |
| Index.InsertionSortStable | src/pages/Index.tsx:75-96 | the elements sharing any one key keep their relative order |
| Index.InsertIntoSorted | src/pages/Index.tsx:75-96 | one insertion step turns the first i+1 cells into the stable insertion of cell i into the first i cells, and leaves the cells after it untouched |
| Index.SortByKey | src/pages/Index.tsx:75-96 | the array ends as the stable insertion sort of what it held |
| Index.SortDishes | src/pages/Index.tsx:71-99 | the dish list as each order's stable `sort` leaves it: the insertion sort by that order's rank |
| Index.SortDishesSortedPermutation | src/pages/Index.tsx:71-99 | the sorted dish list is ordered by the order's rank and is a permutation of the list |
| Index.SortDishesStable | src/pages/Index.tsx:71-99 | dishes that rank equally keep the order they had before the sort |
| Index.SortInPlace | src/pages/Index.tsx:71-99 | the copy ends as the stable sort of the list by the order's rank |
| Index.NegationReversesOrder | src/pages/Index.tsx:81-89 | sorting by the negated key puts the largest minimum price or rating first |
| Index.IndexPage.constructor | src/pages/Index.tsx:15-21 | the page starts loading, with an empty query, price_low, all three platforms and the whole fixture shown |
| Index.IndexPage.FinishLoading | src/pages/Index.tsx:25-31 | the first load ends |
| Index.IndexPage.HandleSearch | src/pages/Index.tsx:34-62 | both lists are searched again from the full fixture, nothing else changes, and the shown lists stay drawn from the fixture |
| Index.IndexPage.HandleSortChange | src/pages/Index.tsx:65-105 | for the four known values the dish list becomes its stable sort by that order's rank, a permutation of itself; any other value leaves it unchanged; restaurants are not sorted |
| Index.IndexPage.HandleFilterChange | src/pages/Index.tsx:108-152 | a toggle that would empty the selection changes nothing; otherwise both lists are filtered again from the full fixture by the new selection, and some platform stays selected |
| FoodCard.InsertByPrice | src/components/FoodCard.tsx:36 | one insertion step of the card's stable copy-sort by price, placing the offer before the first offer at least as expensive |
| FoodCard.InsertByPriceCounts | src/components/FoodCard.tsx:36 | inserting an offer adds exactly that offer to the multiset |
| FoodCard.InsertByPriceSorted | src/components/FoodCard.tsx:36 | inserting into a list sorted by price keeps it sorted |
| FoodCard.SortByPrice | src/components/FoodCard.tsx:36 | the sorted copy has as many offers as the list |
| FoodCard.SortByPriceSorted | src/components/FoodCard.tsx:36 | the sorted copy is ordered by price |
| FoodCard.SortByPriceCounts | src/components/FoodCard.tsx:36 | the sorted copy is a permutation of the offers |
| FoodCard.ShowsDiscountCode | src/components/FoodCard.tsx:86 | the code line is shown when the cheapest offer carries a non-empty code |
| FoodCard.SortHeadIsFirstCheapest | src/components/FoodCard.tsx:36 | since the sort is stable, its first element is the first listed cheapest offer |
| FoodCard.CheapestOption | src/components/FoodCard.tsx:36 | undefined exactly when there are no offers; otherwise an offer of the dish, priced at most every offer, with no cheaper-or-equal offer before it |
| FoodCard.DiscountLineFromCheapest | src/components/FoodCard.tsx:86-88 | a shown code belongs to an offer at the minimum price; when no offer has a non-empty code the line is never shown |
| FoodCard.CheapestIsSortKey | src/components/FoodCard.tsx:36 | the card's best price is the minimum price the home page sorts by, and there is none exactly when the minimum is Infinity |
| RestaurantDetail.FindRestaurant | src/pages/RestaurantDetail.tsx:16 | absent exactly when no restaurant has the id; otherwise the first restaurant with that id |
| RestaurantDetail.FindsEveryRestaurant | src/pages/RestaurantDetail.tsx:16-22 | with distinct ids, every restaurant is found by its own id |
| RestaurantDetail.OfRestaurant | src/pages/RestaurantDetail.tsx:17 | a dish belongs to the page when a restaurant was found and the dish names it; with no restaurant no dish does |
| RestaurantDetail.RelatedItems | src/pages/RestaurantDetail.tsx:17 | the dishes are a subsequence of the list, and there are none when no restaurant was found |
| RestaurantDetail.RelatedItemsMembership | src/pages/RestaurantDetail.tsx:17 | a dish is related exactly when it is listed and names the restaurant |
| RestaurantDetail.RelatedItemsCounts | src/pages/RestaurantDetail.tsx:27 | each of the restaurant's dishes is kept as often as it occurs, and no other dish is |
| RestaurantDetail.SearchQuery | src/pages/RestaurantDetail.tsx:34 | the item name when non-empty, else the restaurant's name, else the empty string |
| RestaurantDetail.UrlPrefix | src/pages/RestaurantDetail.tsx:36-43 | only the three known platforms have a URL |
| RestaurantDetail.OrderUrl | src/pages/RestaurantDetail.tsx:36-43 | the URL exists exactly for the three platforms and is the platform's prefix followed by the encoded query |
| RestaurantDetail.OrderUrlRoundTrip | src/pages/RestaurantDetail.tsx:36-43 | an order URL determines its platform and encoded query |
| RestaurantDetail.RowOrderUrl | src/pages/RestaurantDetail.tsx:157-179 | a row has a link exactly when the dish has a cheapest offer on a known platform; the link reads back as that offer's platform and the row's encoded search query |
| RestaurantDetail.RowOrderUrlForKnownPlatforms | src/pages/RestaurantDetail.tsx:157-179 | a named dish on known platforms links to its cheapest offer's platform, searching for the dish's name |
| RestaurantDetail.AvailableOnSearchesRestaurant | src/pages/RestaurantDetail.tsx:130-135 | an "Available on" button links to that platform, searching for the restaurant's name |
| RestaurantDetail.RestaurantDetailPage.constructor | src/pages/RestaurantDetail.tsx:15-17 | the page starts with the restaurant found by the route id and that restaurant's dishes |
| RestaurantDetail.RestaurantDetailPage.OnRouteChange | src/pages/RestaurantDetail.tsx:20-23 | the restaurant is looked up again by the new id |
| RestaurantDetail.RestaurantDetailPage.OnRestaurantChange | src/pages/RestaurantDetail.tsx:25-29 | a found restaurant replaces the dishes; with none they stay as they were |
| RestaurantDetail.RestaurantDetailPage.HandleOrderNow | src/pages/RestaurantDetail.tsx:32-52 | a URL exists exactly for the three platforms, and it reads back as that platform and the encoded search query |
| SearchBar.SubmittedQuery | src/components/SearchBar.tsx:14-19 | nothing is submitted exactly when the query is all white space; otherwise the trimmed query, which is non-empty and has no white space at either end |
| SearchBar.SubmitIsStable | src/components/SearchBar.tsx:16-17 | submitting a submitted query submits it unchanged |
| SearchBar.SearchBarForm.constructor | src/components/SearchBar.tsx:12 | the box starts empty |
| SearchBar.SearchBarForm.SetQuery | src/components/SearchBar.tsx:29 | typing replaces the query with the input's value, unchanged |
| SearchBar.SearchBarForm.HandleSubmit | src/components/SearchBar.tsx:14-19 | passes on what `SubmittedQuery` gives for the current query: it calls back exactly when the query is not all white space, with the trimmed query |

## Left out

- Timers and loading phases. The source's timers (the 1.5 s first load, the 800 ms and 500 ms handler delays, the 15 s price interval) are collapsed: each handler's delayed part runs at once, and `Tick` is one firing of the interval.
- Toasts, `window.open`, `localStorage`, `JSON.parse` and `Date` parsing. These are browser calls. They become the parameters `now` and `stored`, the returned URL, and the `storedUser` field.
- `encodeURIComponent`: a browser function, taken as the uninterpreted parameter `encode`.
- Floating point. `toFixed(2)`/`parseFloat` rounding and fractional ratings are replaced by integer cents and tenths. The price move of a tick is a parameter between -200 and 200 cents, rather than being derived from a float draw.
- Strings.LowerChar: lower-cases the ASCII letters only, because Unicode case mapping has no definition here.
- Exceptions on malformed data. A dish with no offers makes `cheapestOption` undefined, so reading its platform throws at `src/components/FoodCard.tsx:85`, and reading its price or platform throws at `src/pages/RestaurantDetail.tsx:171-172`; the model returns None there instead. `JSON.parse` throws on a stored record that is not JSON (`src/hooks/use-real-time-prices.tsx:22`), leaving the record in place; `StoredUser` cannot represent such a record. Neither case arises with the fixture (every dish has an offer) or with the record `src/pages/Login.tsx:42-46` writes.
- React closure staleness: the interval reads the price list from an older render and applies the update to the current one. The model has a single state.
- The `activeTab` state and rendering (skeletons, empty-result messages, badges): no logic to state.
- RestaurantDetail.UrlPrefix: a platform name that is a property of every JavaScript object (such as `toString`) would reach the prototype in the source's lookup. The model gives such names no URL.
- Login, Settings, location, the network API, and rendering-only components: they are outside this model. Settings' connected-platform gating refers to functions the hook never returns.
