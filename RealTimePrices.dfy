/**
 * The simulated real-time price feed: a stored login session checked once
 * on mount, and a periodic tick that moves one platform's price of one dish
 * by at most two dollars (never below 0.99), sometimes attaching a discount
 * code, and records the change in a history of the five latest updates.
 *
 * Every random draw is a parameter: a `real` in [0, 1) standing for one
 * `Math.random()` result, or the price change already expressed in cents.
 * Times are integer milliseconds.
 */
module RealTimePrices {
  import opened Wrappers
  import opened MockData

  /** One recorded price change. */
  datatype PriceUpdate = PriceUpdate(
    itemId: string,
    platform: string,
    newPrice: int,
    oldPrice: int,
    hasDiscount: bool,
    discountCode: Option<string>)

  /**
   * The record kept under the 'user' storage key, as the hook reads it.
   * loginTime is None when the stored timestamp is not a date (its time is NaN).
   */
  datatype StoredUser = StoredUser(loginTime: Option<int>, isLoggedIn: bool)

  const HourMillis: int := 1000 * 60 * 60
  /** How long a login session stays valid, in milliseconds. */
  const SessionMillis: int := 24 * HourMillis
  /** The floor of every simulated price, in cents. */
  const PriceFloor: int := 99
  /** The largest simulated price move, in cents, either way. */
  const MaxChange: int := 200
  /** How many updates the history retains. */
  const HistoryLimit: nat := 5

  const DiscountCodes: seq<string> := [
    "SAVE10", "NEWUSER", "TASTY20", "HUNGRY", "SPCL15",
    "WEEKEND", "FOODIE", "WELCOME", "OFFER25", "FIRST50"
  ]

  // ---------------------------------------------------------------- session

  /** A stored session is accepted when it is under 24 hours old and marked logged in. */
  predicate SessionAccepted(u: StoredUser, now: int) {
    u.loginTime.Some? && now - u.loginTime.value < SessionMillis && u.isLoggedIn
  }

  /** The integer test agrees with the hook's test on elapsed hours as a real number. */
  lemma SessionAcceptedInHours(u: StoredUser, now: int)
    requires u.loginTime.Some?
    ensures SessionAccepted(u, now) <==>
            ((now - u.loginTime.value) as real / (HourMillis as real) < 24.0 && u.isLoggedIn)
  {
    var e := (now - u.loginTime.value) as real;
    var h := HourMillis as real;
    assert e / h < 24.0 <==> e < 24.0 * h;
  }

  /** Once a session is rejected it stays rejected: expiry only ever comes closer. */
  lemma ExpiredStaysExpired(u: StoredUser, now: int, later: int)
    requires now <= later
    requires !SessionAccepted(u, now)
    ensures !SessionAccepted(u, later)
  {
  }

  // ---------------------------------------------------------------- one tick

  /** Scaling by a draw below 1 keeps a positive count's product below the count. */
  lemma DrawBelowCount(draw: real, n: real)
    requires 0.0 <= draw < 1.0 && n > 0.0
    ensures 0.0 <= draw * n < n
  {
    var gap := 1.0 - draw;
    assert gap > 0.0;
    assert gap * n > 0.0;
    assert n - draw * n == gap * n;
  }

  /** `Math.floor(draw * n)`: an index below n whenever n is positive. */
  function DrawIndex(draw: real, n: nat): (i: nat)
    requires 0.0 <= draw < 1.0
    ensures n > 0 ==> i < n
    ensures n == 0 ==> i == 0
  {
    if n == 0 then 0
    else
      DrawBelowCount(draw, n as real);
      (draw * n as real).Floor
  }

  /** `max(0.99, current + change)`: the moved price, clamped at the floor. */
  function NewPrice(current: int, change: int): (p: int)
    requires -MaxChange <= change <= MaxChange
    ensures p >= PriceFloor
    ensures p >= current + change
    ensures p == current + change || p == PriceFloor
  {
    if current + change < PriceFloor then PriceFloor else current + change
  }

  /** One of the ten promotional codes, chosen by the draw. */
  function DiscountCode(draw: real): (c: string)
    requires 0.0 <= draw < 1.0
    ensures c in DiscountCodes
  {
    DiscountCodes[DrawIndex(draw, |DiscountCodes|)]
  }

  /** A discount is attached when the draw exceeds 0.8. */
  predicate DiscountDrawn(draw: real) { draw > 0.8 }

  // ---------------------------------------------------------------- applying an update

  /**
   * The offers of a matching dish after the update: each offer on the
   * update's platform takes the new price and the update's discount code
   * (clearing any earlier code when the update has none); every other offer
   * stays as it was.
   */
  function UpdateOffers(opts: seq<PricingOption>, u: PriceUpdate): (r: seq<PricingOption>)
    ensures |r| == |opts|
    ensures forall k :: 0 <= k < |opts| ==>
      r[k].platform == opts[k].platform && r[k].deliveryFee == opts[k].deliveryFee &&
      r[k].estimatedTime == opts[k].estimatedTime
    ensures forall k :: 0 <= k < |opts| && opts[k].platform != u.platform ==> r[k] == opts[k]
    ensures forall k :: 0 <= k < |opts| && opts[k].platform == u.platform ==>
      r[k].price == u.newPrice && r[k].discountCode == u.discountCode
  {
    seq(|opts|, k requires 0 <= k < |opts| =>
      if opts[k].platform == u.platform then opts[k].(price := u.newPrice, discountCode := u.discountCode)
      else opts[k])
  }

  /**
   * The price list after the update: same length and order, dishes with
   * another id untouched, and a matching dish changed in its offers only.
   */
  function ApplyUpdate(prices: seq<FoodItem>, u: PriceUpdate): (r: seq<FoodItem>)
    ensures |r| == |prices|
    ensures forall i :: 0 <= i < |prices| && prices[i].id != u.itemId ==> r[i] == prices[i]
    ensures forall i :: 0 <= i < |prices| && prices[i].id == u.itemId ==>
      r[i].(pricingOptions := prices[i].pricingOptions) == prices[i] &&
      r[i].pricingOptions == UpdateOffers(prices[i].pricingOptions, u)
  {
    seq(|prices|, i requires 0 <= i < |prices| =>
      if prices[i].id == u.itemId then prices[i].(pricingOptions := UpdateOffers(prices[i].pricingOptions, u))
      else prices[i])
  }

  /** Applying the same update twice is applying it once. */
  lemma ApplyUpdateIdempotent(prices: seq<FoodItem>, u: PriceUpdate)
    ensures ApplyUpdate(ApplyUpdate(prices, u), u) == ApplyUpdate(prices, u)
  {
    var once := ApplyUpdate(prices, u);
    forall i | 0 <= i < |prices| ensures ApplyUpdate(once, u)[i] == once[i] {
      if prices[i].id == u.itemId {
        var o := once[i].pricingOptions;
        assert UpdateOffers(o, u) == o;
      }
    }
  }

  /** Every offer of the chosen dish carries the update's price and code afterwards. */
  lemma UpdateTakesEffect(prices: seq<FoodItem>, u: PriceUpdate, i: nat, k: nat)
    requires i < |prices| && prices[i].id == u.itemId
    requires k < |prices[i].pricingOptions| && prices[i].pricingOptions[k].platform == u.platform
    ensures k < |ApplyUpdate(prices, u)[i].pricingOptions|
    ensures ApplyUpdate(prices, u)[i].pricingOptions[k].price == u.newPrice
    ensures ApplyUpdate(prices, u)[i].pricingOptions[k].discountCode == u.discountCode
  {
  }

  /** Every price in the list is at least the given floor. */
  predicate PricesAtLeast(prices: seq<FoodItem>, floor: int) {
    forall i, k :: 0 <= i < |prices| && 0 <= k < |prices[i].pricingOptions| ==>
      prices[i].pricingOptions[k].price >= floor
  }

  /** An update that respects the floor keeps the whole list above it. */
  lemma ApplyUpdateKeepsFloor(prices: seq<FoodItem>, u: PriceUpdate)
    requires PricesAtLeast(prices, PriceFloor) && u.newPrice >= PriceFloor
    ensures PricesAtLeast(ApplyUpdate(prices, u), PriceFloor)
  {
    var r := ApplyUpdate(prices, u);
    forall i, k | 0 <= i < |r| && 0 <= k < |r[i].pricingOptions|
      ensures r[i].pricingOptions[k].price >= PriceFloor
    {
      if prices[i].id == u.itemId {
        assert r[i].pricingOptions == UpdateOffers(prices[i].pricingOptions, u);
      }
    }
  }

  /** The fixture prices start above the floor. */
  lemma FixturePricesAboveFloor()
    ensures PricesAtLeast(FoodItems, PriceFloor)
  {
  }

  // ---------------------------------------------------------------- history

  function Min(a: int, b: int): int { if a <= b then a else b }

  /** `[u, ...history].slice(0, 5)`: the new update first, then as much of the old history as fits. */
  function PushUpdate(history: seq<PriceUpdate>, u: PriceUpdate): (r: seq<PriceUpdate>)
    ensures |r| == Min(HistoryLimit, |history| + 1)
    ensures r[0] == u
    ensures r[1..] <= history
  {
    ([u] + history)[..Min(HistoryLimit, |history| + 1)]
  }

  /** The history after the updates us, oldest first, were pushed onto an empty one. */
  function HistoryOf(us: seq<PriceUpdate>): seq<PriceUpdate> {
    if us == [] then [] else PushUpdate(HistoryOf(us[..|us| - 1]), us[|us| - 1])
  }

  /** The history holds exactly the five (or fewer) latest updates, newest first. */
  lemma {:induction false} HistoryKeepsLatest(us: seq<PriceUpdate>)
    ensures |HistoryOf(us)| == Min(HistoryLimit, |us|)
    ensures forall k :: 0 <= k < |HistoryOf(us)| ==> HistoryOf(us)[k] == us[|us| - 1 - k]
  {
    if us != [] {
      var front := us[..|us| - 1];
      HistoryKeepsLatest(front);
      var h := HistoryOf(us);
      forall k | 0 <= k < |h| ensures h[k] == us[|us| - 1 - k] {
        if k > 0 {
          assert h[k] == HistoryOf(front)[k - 1];
          assert front[|front| - 1 - (k - 1)] == us[|us| - 1 - k];
        }
      }
    }
  }

  // ---------------------------------------------------------------- the hook's state

  /** The hook's state: the price list, the update history, the login flag and the stored session. */
  class PriceFeed {
    var prices: seq<FoodItem>
    var updates: seq<PriceUpdate>
    var isLoggedIn: bool
    /** The browser's 'user' record, or None when the key is absent. */
    var storedUser: Option<StoredUser>

    /** The history never exceeds its limit, and every recorded price respects the floor. */
    ghost predicate Valid()
      reads this
    {
      |updates| <= HistoryLimit &&
      forall k :: 0 <= k < |updates| ==> updates[k].newPrice >= PriceFloor
    }

    /** Mounting the hook: the given prices, no history, logged out. */
    constructor (initialPrices: seq<FoodItem>, stored: Option<StoredUser>)
      ensures Valid()
      ensures prices == initialPrices && updates == [] && !isLoggedIn && storedUser == stored
    {
      prices := initialPrices;
      updates := [];
      isLoggedIn := false;
      storedUser := stored;
    }

    /** The effect that adopts a new initial price list. */
    method ResetPrices(initialPrices: seq<FoodItem>)
      requires Valid()
      modifies this`prices
      ensures Valid() && prices == initialPrices
    {
      prices := initialPrices;
    }

    /**
     * The mount-time session check: an accepted session logs the user in;
     * any other stored record is removed; with no record nothing happens.
     */
    method CheckSession(now: int)
      requires Valid()
      modifies this`isLoggedIn, this`storedUser
      ensures Valid()
      ensures old(storedUser).None? ==> isLoggedIn == old(isLoggedIn) && storedUser.None?
      ensures old(storedUser).Some? && SessionAccepted(old(storedUser).value, now) ==>
                isLoggedIn && storedUser == old(storedUser)
      ensures old(storedUser).Some? && !SessionAccepted(old(storedUser).value, now) ==>
                isLoggedIn == old(isLoggedIn) && storedUser.None?
    {
      match storedUser {
        case None =>
        case Some(u) =>
          if SessionAccepted(u, now) {
            isLoggedIn := true;
          } else {
            storedUser := None;
          }
      }
    }

    /**
     * One firing of the interval. It runs only while logged in with a
     * non-empty list; it picks a dish and one of its offers (any offer: no
     * platform is excluded), moves that offer's price, perhaps attaches a
     * code, applies the update to every offer of that dish on that platform
     * and pushes it onto the history. It returns the update it made, or
     * None when the tick did nothing.
     */
    method Tick(itemDraw: real, offerDraw: real, change: int, discountDraw: real, codeDraw: real)
      returns (event: Option<PriceUpdate>)
      requires Valid()
      requires 0.0 <= itemDraw < 1.0 && 0.0 <= offerDraw < 1.0
      requires 0.0 <= discountDraw < 1.0 && 0.0 <= codeDraw < 1.0
      requires -MaxChange <= change <= MaxChange
      modifies this`prices, this`updates
      ensures Valid()
      ensures event.None? <==>
        !isLoggedIn || |old(prices)| == 0 ||
        |old(prices)[DrawIndex(itemDraw, |old(prices)|)].pricingOptions| == 0
      ensures event.None? ==> prices == old(prices) && updates == old(updates)
      ensures event.Some? ==>
        var item := old(prices)[DrawIndex(itemDraw, |old(prices)|)];
        var offer := item.pricingOptions[DrawIndex(offerDraw, |item.pricingOptions|)];
        var u := event.value;
        && offer in item.pricingOptions
        && u.itemId == item.id && u.platform == offer.platform
        && u.oldPrice == offer.price
        && u.newPrice == NewPrice(offer.price, change)
        && u.hasDiscount == DiscountDrawn(discountDraw)
        && u.discountCode == (if u.hasDiscount then Some(DiscountCode(codeDraw)) else None)
        && prices == ApplyUpdate(old(prices), u)
        && updates == PushUpdate(old(updates), u)
    {
      event := None;
      if !isLoggedIn || |prices| == 0 {
        return;
      }
      var item := prices[DrawIndex(itemDraw, |prices|)];
      if |item.pricingOptions| == 0 {
        return;
      }
      var offer := item.pricingOptions[DrawIndex(offerDraw, |item.pricingOptions|)];
      var hasDiscount := DiscountDrawn(discountDraw);
      var code := if hasDiscount then Some(DiscountCode(codeDraw)) else None;
      var u := PriceUpdate(item.id, offer.platform, NewPrice(offer.price, change), offer.price, hasDiscount, code);
      prices := ApplyUpdate(prices, u);
      updates := PushUpdate(updates, u);
      event := Some(u);
    }
  }

  /** A recorded update names a platform the dish offers, before and after the update. */
  lemma EventPlatformOffered(prices: seq<FoodItem>, u: PriceUpdate, i: nat)
    requires i < |prices| && prices[i].id == u.itemId
    requires exists o :: o in prices[i].pricingOptions && o.platform == u.platform
    ensures exists o :: o in ApplyUpdate(prices, u)[i].pricingOptions && o.platform == u.platform
  {
    var opts := prices[i].pricingOptions;
    var k :| 0 <= k < |opts| && opts[k].platform == u.platform;
    assert ApplyUpdate(prices, u)[i].pricingOptions[k].platform == u.platform;
  }
}
