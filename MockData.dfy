/**
 * The catalogue's entities and the fixture data every page starts from.
 * Money is in integer cents (12.99 is 1299), ratings in integer tenths
 * (4.5 is 45), times in whole minutes.
 */
module MockData {
  import opened Wrappers

  /** One platform's offer for a dish. */
  datatype PricingOption = PricingOption(
    platform: string,
    price: int,
    deliveryFee: int,
    estimatedTime: int,
    discountCode: Option<string>)

  datatype FoodItem = FoodItem(
    id: string,
    name: string,
    restaurant: string,
    cuisine: string,
    description: string,
    imageUrl: string,
    rating: int,
    pricingOptions: seq<PricingOption>)

  datatype Restaurant = Restaurant(
    id: string,
    name: string,
    cuisine: seq<string>,
    imageUrl: string,
    rating: int,
    deliveryTime: int,
    distance: string,
    platforms: seq<string>)

  /** The three delivery platforms the filter bar offers and the home page starts with. */
  const Platforms: seq<string> := ["Swiggy", "Zomato", "UberEats"]

  const FoodItems: seq<FoodItem> := [
    FoodItem("1", "Chicken Biryani", "Biryani House", "Indian",
      "Aromatic basmati rice cooked with tender chicken pieces and authentic spices.",
      "https://source.unsplash.com/random/300x200/?biryani", 45,
      [PricingOption("Swiggy", 1299, 199, 35, Some("FIRST50")),
       PricingOption("Zomato", 1349, 0, 40, None),
       PricingOption("UberEats", 1499, 249, 30, None)]),
    FoodItem("2", "Margherita Pizza", "Pizza Paradise", "Italian",
      "Classic pizza with tomato sauce, mozzarella, fresh basil, salt, and olive oil.",
      "https://source.unsplash.com/random/300x200/?pizza", 42,
      [PricingOption("Swiggy", 1099, 149, 25, None),
       PricingOption("Zomato", 999, 199, 30, Some("PIZZA10")),
       PricingOption("UberEats", 1149, 0, 35, None)]),
    FoodItem("3", "Butter Chicken", "Punjab Grill", "Indian",
      "Tender chicken in a creamy tomato sauce with butter and aromatic spices.",
      "https://source.unsplash.com/random/300x200/?curry", 47,
      [PricingOption("Swiggy", 1499, 199, 40, None),
       PricingOption("Zomato", 1399, 249, 35, Some("TASTY15")),
       PricingOption("UberEats", 1549, 0, 45, None)]),
    FoodItem("4", "Sushi Platter", "Tokyo Bites", "Japanese",
      "Assorted fresh sushi including salmon, tuna, and avocado rolls with pickled ginger and wasabi.",
      "https://source.unsplash.com/random/300x200/?sushi", 48,
      [PricingOption("Swiggy", 2299, 299, 45, None),
       PricingOption("Zomato", 2499, 0, 50, Some("SUSHI20")),
       PricingOption("UberEats", 2349, 349, 40, None)]),
    FoodItem("5", "Double Cheeseburger", "Burger Junction", "American",
      "Two juicy beef patties with melted cheese, lettuce, tomato, onions, and special sauce.",
      "https://source.unsplash.com/random/300x200/?burger", 43,
      [PricingOption("Swiggy", 899, 149, 25, Some("BURGER5")),
       PricingOption("Zomato", 949, 99, 30, None),
       PricingOption("UberEats", 849, 199, 20, None)]),
    FoodItem("6", "Pad Thai", "Thai Spice", "Thai",
      "Stir-fried rice noodles with eggs, tofu, bean sprouts, peanuts, and lime in a sweet-savory sauce.",
      "https://source.unsplash.com/random/300x200/?padthai", 44,
      [PricingOption("Swiggy", 1199, 199, 35, None),
       PricingOption("Zomato", 1099, 249, 40, None),
       PricingOption("UberEats", 1249, 0, 30, Some("THAI10"))])
  ]

  const Restaurants: seq<Restaurant> := [
    Restaurant("1", "Biryani House", ["Indian", "Mughlai"],
      "https://source.unsplash.com/random/300x200/?restaurant,indian", 45, 35, "1.2 km",
      ["Swiggy", "Zomato", "UberEats"]),
    Restaurant("2", "Pizza Paradise", ["Italian", "Fast Food"],
      "https://source.unsplash.com/random/300x200/?restaurant,pizza", 42, 25, "0.8 km",
      ["Swiggy", "Zomato"]),
    Restaurant("3", "Punjab Grill", ["Indian", "North Indian"],
      "https://source.unsplash.com/random/300x200/?restaurant,punjabi", 47, 40, "1.5 km",
      ["Swiggy", "Zomato", "UberEats"]),
    Restaurant("4", "Tokyo Bites", ["Japanese", "Sushi"],
      "https://source.unsplash.com/random/300x200/?restaurant,japanese", 48, 45, "2.1 km",
      ["Zomato", "UberEats"]),
    Restaurant("5", "Burger Junction", ["American", "Fast Food"],
      "https://source.unsplash.com/random/300x200/?restaurant,burger", 43, 25, "1.0 km",
      ["Swiggy", "Zomato", "UberEats"]),
    Restaurant("6", "Thai Spice", ["Thai", "Asian"],
      "https://source.unsplash.com/random/300x200/?restaurant,thai", 44, 35, "1.8 km",
      ["Swiggy", "UberEats"])
  ]

  predicate DistinctFoodIds(items: seq<FoodItem>) {
    forall i, j :: 0 <= i < j < |items| ==> items[i].id != items[j].id
  }

  predicate DistinctRestaurantIds(rs: seq<Restaurant>) {
    forall i, j :: 0 <= i < j < |rs| ==> rs[i].id != rs[j].id
  }

  /** At least one offer, no platform offered twice. */
  predicate OffersWellFormed(opts: seq<PricingOption>) {
    |opts| > 0 &&
    forall k, l :: 0 <= k < l < |opts| ==> opts[k].platform != opts[l].platform
  }

  /** Prices and delivery times are positive, delivery fees are never negative. */
  predicate AmountsWellFormed(o: PricingOption) {
    o.price > 0 && o.estimatedTime > 0 && o.deliveryFee >= 0
  }

  /** A non-empty list drawn from the three known platforms. */
  predicate PlatformsWellFormed(ps: seq<string>) {
    |ps| > 0 && forall p :: p in ps ==> p in Platforms
  }

  lemma FoodIdsDistinct()
    ensures DistinctFoodIds(FoodItems)
  {
  }

  lemma FoodOffersWellFormed()
    ensures forall item :: item in FoodItems ==> OffersWellFormed(item.pricingOptions)
  {
  }

  lemma AmountsPositive()
    ensures forall item, o :: item in FoodItems && o in item.pricingOptions ==> AmountsWellFormed(o)
  {
  }

  lemma RestaurantIdsDistinct()
    ensures DistinctRestaurantIds(Restaurants)
  {
  }

  /** Every dish names a restaurant that the restaurant list holds. */
  lemma DishesNameKnownRestaurants()
    ensures forall item :: item in FoodItems ==> exists r :: r in Restaurants && r.name == item.restaurant
  {
    forall item | item in FoodItems
      ensures exists r :: r in Restaurants && r.name == item.restaurant
    {
      var i :| 0 <= i < |FoodItems| && FoodItems[i] == item;
      assert Restaurants[i] in Restaurants && Restaurants[i].name == item.restaurant;
    }
  }

  lemma RestaurantPlatformsKnown()
    ensures forall r :: r in Restaurants ==> PlatformsWellFormed(r.platforms)
  {
  }

  /** Every dish is offered on known platforms only. */
  lemma OfferPlatformsKnown()
    ensures forall item, o :: item in FoodItems && o in item.pricingOptions ==> o.platform in Platforms
  {
  }
}
