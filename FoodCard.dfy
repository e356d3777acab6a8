/**
 * The dish card's price comparison: the offers are listed as they are, and
 * the "best price" is the head of a copy of the offers sorted by price.
 * JavaScript's sort is stable, so among equally cheap offers the head is
 * the one listed first.
 */
module FoodCard {
  import opened Wrappers
  import opened MockData
  import Index

  predicate SortedByPrice(s: seq<PricingOption>) {
    forall i, j :: 0 <= i < j < |s| ==> s[i].price <= s[j].price
  }

  /**
   * Inserts o in front of the first offer that is at least as expensive.
   * This is the card's own stable sort on integer prices, kept apart from
   * Index.InsertionSort: SortHeadIsFirstCheapest reads the first cheapest
   * offer straight off this front insertion, and no Extended key is needed.
   */
  function InsertByPrice(o: PricingOption, s: seq<PricingOption>): seq<PricingOption> {
    if s == [] then [o]
    else if o.price <= s[0].price then [o] + s
    else [s[0]] + InsertByPrice(o, s[1..])
  }

  lemma {:induction false} InsertByPriceCounts(o: PricingOption, s: seq<PricingOption>)
    ensures multiset(InsertByPrice(o, s)) == multiset(s) + multiset{o}
    ensures |InsertByPrice(o, s)| == |s| + 1
  {
    if s != [] && o.price > s[0].price {
      InsertByPriceCounts(o, s[1..]);
      assert s == [s[0]] + s[1..];
    }
  }

  lemma {:induction false} InsertByPriceSorted(o: PricingOption, s: seq<PricingOption>)
    requires SortedByPrice(s)
    ensures SortedByPrice(InsertByPrice(o, s))
  {
    if s != [] && o.price > s[0].price {
      var rest := InsertByPrice(o, s[1..]);
      InsertByPriceSorted(o, s[1..]);
      InsertByPriceCounts(o, s[1..]);
      var r := [s[0]] + rest;
      forall j | 0 < j < |r| ensures s[0].price <= r[j].price {
        assert rest[j - 1] in multiset(rest);
        assert rest[j - 1] == o || rest[j - 1] in s[1..];
      }
    }
  }

  /** `[...opts].sort((a, b) => a.price - b.price)`: a copy of the offers, inserted one by one by price. */
  function SortByPrice(opts: seq<PricingOption>): (r: seq<PricingOption>)
    ensures |r| == |opts|
  {
    if opts == [] then []
    else
      var sortedTail := SortByPrice(opts[1..]);
      InsertByPriceCounts(opts[0], sortedTail);
      InsertByPrice(opts[0], sortedTail)
  }

  /** The sorted copy is ordered by price. */
  lemma {:induction false} SortByPriceSorted(opts: seq<PricingOption>)
    ensures SortedByPrice(SortByPrice(opts))
  {
    if opts != [] {
      SortByPriceSorted(opts[1..]);
      InsertByPriceSorted(opts[0], SortByPrice(opts[1..]));
    }
  }

  /** The sorted copy holds exactly the offers, each as often as listed. */
  lemma {:induction false} SortByPriceCounts(opts: seq<PricingOption>)
    ensures multiset(SortByPrice(opts)) == multiset(opts)
  {
    if opts != [] {
      SortByPriceCounts(opts[1..]);
      InsertByPriceCounts(opts[0], SortByPrice(opts[1..]));
      assert opts == [opts[0]] + opts[1..];
    }
  }

  /** i is the first listed offer with no cheaper offer anywhere in the list. */
  ghost predicate FirstCheapest(opts: seq<PricingOption>, i: int) {
    0 <= i < |opts| &&
    (forall k :: 0 <= k < |opts| ==> opts[i].price <= opts[k].price) &&
    (forall k :: 0 <= k < i ==> opts[k].price > opts[i].price)
  }

  lemma InsertByPriceHead(o: PricingOption, s: seq<PricingOption>)
    requires s != []
    ensures InsertByPrice(o, s)[0] == if o.price <= s[0].price then o else s[0]
  {
  }

  /** Shifting every index by one between a list and its tail. */
  lemma FirstCheapestOfTail(opts: seq<PricingOption>, j: int)
    requires |opts| > 1 && FirstCheapest(opts[1..], j)
    ensures opts[0].price <= opts[j + 1].price ==> FirstCheapest(opts, 0)
    ensures opts[0].price > opts[j + 1].price ==> FirstCheapest(opts, j + 1)
  {
    var tail := opts[1..];
    assert forall k :: 0 < k < |opts| ==> opts[k] == tail[k - 1];
  }

  /** Because the sort keeps equally priced offers in their listed order, its head is the first cheapest offer. */
  lemma {:induction false} SortHeadIsFirstCheapest(opts: seq<PricingOption>)
    requires |opts| > 0
    ensures exists i :: FirstCheapest(opts, i) && SortByPrice(opts)[0] == opts[i]
  {
    var tail := opts[1..];
    if tail == [] {
      assert FirstCheapest(opts, 0);
    } else {
      SortHeadIsFirstCheapest(tail);
      var j :| FirstCheapest(tail, j) && SortByPrice(tail)[0] == tail[j];
      InsertByPriceHead(opts[0], SortByPrice(tail));
      FirstCheapestOfTail(opts, j);
      if opts[0].price <= tail[j].price {
        assert SortByPrice(opts)[0] == opts[0];
      } else {
        assert SortByPrice(opts)[0] == opts[j + 1];
      }
    }
  }

  /**
   * The card's best offer: the first of the cheapest offers, or None
   * (JavaScript's undefined) when the dish has no offers at all.
   */
  function CheapestOption(opts: seq<PricingOption>): (r: Option<PricingOption>)
    ensures r.None? <==> |opts| == 0
    ensures r.Some? ==> r.value in opts && forall o :: o in opts ==> r.value.price <= o.price
    ensures r.Some? ==> exists i :: 0 <= i < |opts| && opts[i] == r.value &&
                                    forall k :: 0 <= k < i ==> opts[k].price > r.value.price
  {
    if |opts| == 0 then None
    else
      SortHeadIsFirstCheapest(opts);
      Some(SortByPrice(opts)[0])
  }

  /** The "Use code" line shows when the best offer has a code that is not the empty string. */
  predicate ShowsDiscountCode(opts: seq<PricingOption>) {
    var c := CheapestOption(opts);
    c.Some? && c.value.discountCode.Some? && c.value.discountCode.value != ""
  }

  /**
   * A shown code belongs to an offer priced at the minimum; when no offer
   * carries a non-empty code the line never shows.
   */
  lemma DiscountLineFromCheapest(opts: seq<PricingOption>)
    ensures ShowsDiscountCode(opts) ==>
            exists o :: o in opts && o.discountCode.Some? && o.discountCode.value != "" &&
                        forall p :: p in opts ==> o.price <= p.price
    ensures (forall o :: o in opts ==> o.discountCode.None? || o.discountCode.value == "") ==>
            !ShowsDiscountCode(opts)
  {
    if ShowsDiscountCode(opts) {
      var c := CheapestOption(opts).value;
      assert c in opts;
    }
  }

  /** The card's best price is the key that the "price_low" and "price_high" orders sort by. */
  lemma CheapestIsSortKey(item: FoodItem)
    ensures CheapestOption(item.pricingOptions).None? <==> Index.MinPrice(item) == Index.PosInf
    ensures CheapestOption(item.pricingOptions).Some? ==>
            Index.MinPrice(item) == Index.Finite(CheapestOption(item.pricingOptions).value.price)
  {
    var opts := item.pricingOptions;
    var c := CheapestOption(opts);
    var m := Index.MinPrice(item);
    var ps := Index.PricesOf(opts);
    if c.Some? {
      assert |ps| > 0 && m.Finite?;
      var i :| 0 <= i < |opts| && opts[i] == c.value;
      assert ps[i] == c.value.price && ps[i] in ps;
      var j :| 0 <= j < |ps| && ps[j] == m.n;
      assert opts[j] in opts && ps[j] == opts[j].price;
    }
  }
}
