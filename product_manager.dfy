/**
  ProductManager: the catalog, a HashMap from product to its review list.
  Because Product.equals and hashCode look at the id alone, the map holds
  at most one key per id; the model stores it as a map from id to the key
  object the HashMap holds and that key's review list. Each modelled
  operation is taken as one atomic step: create and review hold the write
  lock, findProduct and getDiscounts the read lock.
 */
module Catalog {
  import opened Wrappers
  import opened Decimals
  import opened Ratings
  import opened Text
  import opened Calendar
  import opened Products

  /** Review: a rating and a comment. */
  datatype Review = Review(rating: Rating, comments: string)

  /** One mapping of the HashMap: the key object it holds and that key's review list. */
  datatype Entry = Entry(key: Product, reviews: seq<Review>)

  /** The products field, indexed by the id that decides key equality. */
  type Store = map<Int32, Entry>

  /** What the caller of findProduct or reviewProduct can be thrown. */
  datatype Thrown =
    | ProductManagerException(message: string)
    | NullPointerException

  /** Each entry sits under the id of its own key. */
  predicate KeyedById(s: Store)
  {
    forall id :: id in s ==> s[id].key.id == id
  }

  /** products.keySet(). */
  function Keys(s: Store): set<Product>
  {
    set id | id in s :: s[id].key
  }

  /** Exactly one key per id: two keys of the map with one id are the same key. */
  lemma KeysUniqueById(s: Store)
    requires KeyedById(s)
    ensures forall p, q :: p in Keys(s) && q in Keys(s) && p.id == q.id ==> p == q
    ensures forall id :: id in s <==> exists p :: p in Keys(s) && p.id == id
  {
    forall id | id in s ensures exists p :: p in Keys(s) && p.id == id {
      assert s[id].key in Keys(s);
    }
  }

  // java.util.Map operations on the store, keys compared with Product.equals

  /** products.get(k): the list mapped to the key equal to k, or null. */
  function Get(s: Store, k: Product): (r: Option<seq<Review>>)
    requires KeyedById(s)
    ensures r.Some? <==> exists q :: q in Keys(s) && Equals(k, Some(q))
    ensures r.Some? ==> Entry(s[k.id].key, r.value) in s.Values && Equals(k, Some(s[k.id].key))
  {
    KeysUniqueById(s);
    if k.id in s then Some(s[k.id].reviews) else None
  }

  /** products.putIfAbsent(k, v): a new mapping k -> v only when no key equals k. */
  function PutIfAbsent(s: Store, k: Product, v: seq<Review>): (t: Store)
    requires KeyedById(s)
    ensures KeyedById(t)
    ensures k.id in s ==> t == s
    ensures k.id !in s ==> t.Keys == s.Keys + {k.id} && t[k.id] == Entry(k, v)
    ensures forall id :: id in s ==> id in t && t[id] == s[id]
  {
    if k.id in s then s else s[k.id := Entry(k, v)]
  }

  /** products.remove(k, v): drops the mapping of the key equal to k only if its list equals v. */
  function RemoveMapping(s: Store, k: Product, v: Option<seq<Review>>): (t: Store)
    requires KeyedById(s)
    ensures KeyedById(t)
    ensures k.id in s && v == Some(s[k.id].reviews) ==> t.Keys == s.Keys - {k.id}
    ensures !(k.id in s && v == Some(s[k.id].reviews)) ==> t == s
    ensures forall id :: id in t ==> id in s && t[id] == s[id]
  {
    if k.id in s && v == Some(s[k.id].reviews) then s - {k.id} else s
  }

  /**
    products.put(k, v): maps the key equal to k to v. HashMap keeps the key
    object it already holds, so only a key not yet present is stored as k.
   */
  function Put(s: Store, k: Product, v: seq<Review>): (t: Store)
    requires KeyedById(s)
    ensures KeyedById(t)
    ensures t.Keys == s.Keys + {k.id} && t[k.id].reviews == v
    ensures t[k.id].key == if k.id in s then s[k.id].key else k
    ensures forall id :: id in s && id != k.id ==> t[id] == s[id]
  {
    if k.id in s then s[k.id := Entry(s[k.id].key, v)] else s[k.id := Entry(k, v)]
  }

  /**
    Creating a product whose id is taken changes nothing, so creating the
    same id twice leaves the catalog as the first call left it.
   */
  lemma PutIfAbsentIdempotent(s: Store, k: Product, v: seq<Review>, k2: Product, v2: seq<Review>)
    requires KeyedById(s) && k2.id == k.id
    ensures PutIfAbsent(PutIfAbsent(s, k, v), k2, v2) == PutIfAbsent(s, k, v)
    ensures PutIfAbsent(s, k, v)[k.id].key == if k.id in s then s[k.id].key else k
  {
  }

  /** Why reviewProduct removes before it puts: put alone would leave the old key, with the old rating, in the map. */
  lemma PutKeepsStaleKey(s: Store, k: Product, v: seq<Review>)
    requires KeyedById(s) && k.id in s && s[k.id].key != k
    ensures Put(s, k, v)[k.id].key != k
    ensures Put(RemoveMapping(s, k, Get(s, k)), k, v)[k.id].key == k
  {
  }

  // The rating a review recomputes

  /** The sum of the reviews' rating ordinals (the mapToInt stage). */
  function SumOrdinals(rs: seq<Review>): (sum: nat)
    ensures sum <= 5 * |rs|
  {
    if rs == [] then 0 else SumOrdinals(rs[..|rs| - 1]) + Ordinal(rs[|rs| - 1].rating)
  }

  /**
    (int) Math.round(average().orElse(0)): the mean of count values summing
    to sum, rounded half-up; 0 for no values.
   */
  function RoundedMean(sum: nat, count: nat): (m: nat)
    ensures count > 0 ==> RoundsHalfUp(m, sum, count)
    ensures count == 0 ==> m == 0
  {
    if count == 0 then 0 else DivHalfUp(sum, count)
  }

  /** The rating reviewProduct gives: convert of the rounded mean of the review ordinals. */
  function AverageRating(rs: seq<Review>): (r: Rating)
    ensures Ordinal(r) == RoundedMean(SumOrdinals(rs), |rs|)
  {
    MeanAtMost(SumOrdinals(rs), |rs|, 5);
    Convert(RoundedMean(SumOrdinals(rs), |rs|))
  }

  /** A rounded mean of values at most hi is at most hi (so convert never falls back to NOT_RATED). */
  lemma MeanAtMost(sum: nat, count: nat, hi: nat)
    requires sum <= hi * count
    ensures RoundedMean(sum, count) <= hi
  {
    if count > 0 {
      MultipleFacts(hi, RoundedMean(sum, count), count);
    }
  }

  /** A rounded mean of values at least lo is at least lo. */
  lemma MeanAtLeast(sum: nat, count: nat, lo: nat)
    requires count > 0 && sum >= lo * count
    ensures RoundedMean(sum, count) >= lo
  {
    MultipleFacts(RoundedMean(sum, count), lo, count);
  }

  /** When every review has an ordinal in lo..hi, their sum lies between lo and hi times their number. */
  lemma {:induction false} SumBetween(rs: seq<Review>, lo: nat, hi: nat)
    requires forall i :: 0 <= i < |rs| ==> lo <= Ordinal(rs[i].rating) <= hi
    ensures lo * |rs| <= SumOrdinals(rs) <= hi * |rs|
  {
    if rs != [] {
      var init := rs[..|rs| - 1];
      assert forall i :: 0 <= i < |init| ==> init[i] == rs[i];
      SumBetween(init, lo, hi);
      OneMoreMultiple(lo, |init|);
      OneMoreMultiple(hi, |init|);
    }
  }

  lemma OneMoreMultiple(a: nat, n: nat)
    ensures a * (n + 1) == a * n + a
  {
  }

  /** The recomputed rating lies between the lowest and the highest rating reviewed. */
  lemma AverageWithinReviews(rs: seq<Review>, lo: nat, hi: nat)
    requires |rs| > 0
    requires forall i :: 0 <= i < |rs| ==> lo <= Ordinal(rs[i].rating) <= hi
    ensures lo <= Ordinal(AverageRating(rs)) <= hi
  {
    SumBetween(rs, lo, hi);
    MeanAtMost(SumOrdinals(rs), |rs|, hi);
    MeanAtLeast(SumOrdinals(rs), |rs|, lo);
  }

  // What a review does to the store

  /**
    The store after reviewProduct(p1, ...) on a present product: the review
    goes at the end of the list, and the entry is keyed by p1 re-rated with
    the rounded mean of the whole list.
   */
  function Reviewed(s: Store, p1: Product, review: Review): (t: Store)
    requires KeyedById(s) && p1.id in s
    ensures KeyedById(t)
  {
    var list := s[p1.id].reviews + [review];
    s[p1.id := Entry(ApplyRating(p1, AverageRating(list)), list)]
  }

  /**
    A review keeps one key for the id, now p1 with the new rating, grows
    that list by exactly the new review, and leaves every other entry alone.
   */
  lemma ReviewedEntry(s: Store, p1: Product, review: Review)
    requires KeyedById(s) && p1.id in s
    ensures var t := Reviewed(s, p1, review);
      && t.Keys == s.Keys
      && t[p1.id].reviews == s[p1.id].reviews + [review]
      && |t[p1.id].reviews| == |s[p1.id].reviews| + 1
      && t[p1.id].key == ApplyRating(p1, t[p1.id].key.rating)
      && Ordinal(t[p1.id].key.rating) == RoundedMean(SumOrdinals(t[p1.id].reviews), |t[p1.id].reviews|)
      && Ordinal(t[p1.id].key.rating) <= 5
      && (forall id :: id in s && id != p1.id ==> t[id] == s[id])
  {
  }

  /** Every list in the later store extends the list of the same id in the earlier one. */
  ghost predicate Grows(s: Store, t: Store)
  {
    forall id :: id in s ==> id in t && s[id].reviews <= t[id].reviews
  }

  /** Review lists only grow, over any number of operations. */
  lemma GrowsTransitive(s: Store, t: Store, u: Store)
    requires Grows(s, t) && Grows(t, u)
    ensures Grows(s, u)
  {
    forall id | id in s ensures id in u && s[id].reviews <= u[id].reviews {
      assert t[id].reviews <= u[id].reviews;
    }
  }

  /**
    reviewProduct(id, ...) applied once per review in rs, in order: each
    call re-rates the key the store holds at that point.
   */
  function ReviewedAll(s: Store, id: Int32, rs: seq<Review>): (t: Store)
    requires KeyedById(s) && id in s
    ensures KeyedById(t) && id in t
    decreases |rs|
  {
    if rs == [] then s
    else
      var before := ReviewedAll(s, id, rs[..|rs| - 1]);
      Reviewed(before, before[id].key, rs[|rs| - 1])
  }

  /**
    After any sequence of reviews on one id, its list is the original list
    followed by every review in order, its rating the rounded mean over all
    of them, its id, name and price those it had; no other entry changes.
   */
  lemma {:induction false} ReviewedAllSummary(s: Store, id: Int32, rs: seq<Review>)
    requires KeyedById(s) && id in s && |rs| > 0
    ensures var t := ReviewedAll(s, id, rs);
      && t.Keys == s.Keys
      && t[id].reviews == s[id].reviews + rs
      && t[id].key.rating == AverageRating(s[id].reviews + rs)
      && t[id].key == ApplyRating(s[id].key, t[id].key.rating)
      && (forall j :: j in s && j != id ==> t[j] == s[j])
    decreases |rs|
  {
    var init := rs[..|rs| - 1];
    var before := ReviewedAll(s, id, init);
    if |rs| > 1 {
      ReviewedAllSummary(s, id, init);
    }
    assert before[id].reviews == s[id].reviews + init;
    assert s[id].reviews + init + [rs[|rs| - 1]] == s[id].reviews + rs;
  }

  /** Four FOUR_STAR reviews and one ONE_STAR review. */
  const TeaReviews: seq<Review> := [Review(FourStar, "nice"), Review(FourStar, "nice"),
    Review(FourStar, "nice"), Review(FourStar, "nice"), Review(OneStar, "bad")]

  /** Their ordinals sum to 17; 17 / 5 = 3.4 rounds to 3, THREE_STAR. */
  lemma TeaReviewsAverage()
    ensures AverageRating(TeaReviews) == ThreeStar
  {
    var rs := TeaReviews;
    assert SumOrdinals(rs[..1]) == 4 by { assert rs[..1][..0] == []; }
    assert SumOrdinals(rs[..2]) == 8 by { assert rs[..2][..1] == rs[..1]; }
    assert SumOrdinals(rs[..3]) == 12 by { assert rs[..3][..2] == rs[..2]; }
    assert SumOrdinals(rs[..4]) == 16 by { assert rs[..4][..3] == rs[..3]; }
    assert SumOrdinals(rs) == 17 by { assert rs[..4] == rs[..|rs| - 1]; }
    OrdinalInjective(AverageRating(rs), ThreeStar);
  }

  /**
    The worked case: a product with no reviews yet, reviewed four times
    FOUR_STAR and once ONE_STAR, ends THREE_STAR with all five reviews kept.
   */
  lemma TeaScenario(s: Store, tea: Product)
    requires KeyedById(s) && tea.id in s && s[tea.id] == Entry(tea, [])
    ensures ReviewedAll(s, tea.id, TeaReviews)[tea.id] == Entry(ApplyRating(tea, ThreeStar), TeaReviews)
  {
    ReviewedAllSummary(s, tea.id, TeaReviews);
    assert [] + TeaReviews == TeaReviews;
    TeaReviewsAverage();
  }

  /** THREE_STAR, ONE_STAR and FIVE_STAR, in that order. */
  const CoffeeReviews: seq<Review> := [Review(ThreeStar, "Coffe was ok"),
    Review(OneStar, "Where is the milk?!"), Review(FiveStar, "It's eprfect with ten spoons of sugar!")]

  /** Their ordinals sum to 9, a mean of exactly 3: THREE_STAR. */
  lemma CoffeeReviewsAverage()
    ensures AverageRating(CoffeeReviews) == ThreeStar
  {
    var rs := CoffeeReviews;
    assert SumOrdinals(rs[..1]) == 3 by { assert rs[..1][..0] == []; }
    assert SumOrdinals(rs[..2]) == 4 by { assert rs[..2][..1] == rs[..1]; }
    assert SumOrdinals(rs) == 9 by { assert rs[..2] == rs[..|rs| - 1]; }
    OrdinalInjective(AverageRating(rs), ThreeStar);
  }

  /**
    A FOUR_STAR drink created with no reviews and then reviewed three, one
    and five stars is re-rated THREE_STAR: the creation rating takes no
    part in the mean.
   */
  lemma CoffeeScenario(s: Store, coffee: Product)
    requires KeyedById(s) && coffee.id in s && s[coffee.id] == Entry(coffee, [])
    requires coffee.rating == FourStar
    ensures ReviewedAll(s, coffee.id, CoffeeReviews)[coffee.id] == Entry(ApplyRating(coffee, ThreeStar), CoffeeReviews)
  {
    ReviewedAllSummary(s, coffee.id, CoffeeReviews);
    assert [] + CoffeeReviews == CoffeeReviews;
    CoffeeReviewsAverage();
  }

  /** The message findProduct's exception carries. */
  function NotFoundMessage(id: int): string
  {
    "no product found with the given id : " + IntText(id)
  }

  /** The keys that getDiscounts groups, by their rating's star text. */
  function GroupByStars(keys: set<Product>): (groups: map<string, set<Product>>)
    ensures forall p :: p in keys ==> Stars(p.rating) in groups && p in groups[Stars(p.rating)]
    ensures forall text :: text in groups ==>
      groups[text] != {} && forall p :: p in groups[text] ==> p in keys && Stars(p.rating) == text
  {
    var texts := set p | p in keys :: Stars(GetRating(p));
    map text | text in texts :: set p | p in keys && Stars(GetRating(p)) == text
  }

  /** Two keys share a group exactly when they share a rating: the groups are the ratings that occur. */
  lemma GroupsAreRatings(keys: set<Product>, p: Product, q: Product)
    requires p in keys && q in keys
    ensures var g := GroupByStars(keys);
      (exists text :: text in g && p in g[text] && q in g[text]) <==> p.rating == q.rating
  {
    var g := GroupByStars(keys);
    if exists text :: text in g && p in g[text] && q in g[text] {
      var text :| text in g && p in g[text] && q in g[text];
      StarsInjective(p.rating, q.rating);
    }
  }

  class ProductManager {
    /** products: the catalog. */
    var products: Store

    ghost predicate Valid()
      reads this
    {
      KeyedById(products)
    }

    /** The catalog as loaded at start-up (reading the data folder is not modelled). */
    constructor (loaded: Store)
      requires KeyedById(loaded)
      ensures Valid() && products == loaded
    {
      products := loaded;
    }

    /**
      createProduct(id, name, price, rating, bestBefore): builds a Food and
      maps it to an empty list unless the id is already taken; returns the
      Food it built either way.
     */
    method CreateFood(id: Int32, name: string, price: Decimal, rating: Rating, bestBefore: LocalDate)
      returns (product: Product)
      requires Valid()
      modifies this
      ensures Valid()
      ensures product == Food(id, name, price, rating, bestBefore)
      ensures products == PutIfAbsent(old(products), product, [])
      ensures Grows(old(products), products)
    {
      product := Food(id, name, price, rating, bestBefore);
      products := PutIfAbsent(products, product, []);
    }

    /**
      createProduct(id, name, price, rating): as CreateFood, but the product
      built is a Drink.
     */
    method CreateDrink(id: Int32, name: string, price: Decimal, rating: Rating)
      returns (product: Product)
      requires Valid()
      modifies this
      ensures Valid()
      ensures product == Drink(id, name, price, rating)
      ensures products == PutIfAbsent(old(products), product, [])
      ensures Grows(old(products), products)
    {
      product := Drink(id, name, price, rating);
      products := PutIfAbsent(products, product, []);
    }

    /**
      reviewProduct(p1, rating, comments): takes p1's list out of the map,
      appends the review, re-rates p1 with the rounded mean and maps the
      re-rated product to the list. With no entry for p1 the list is null
      and appending to it throws, leaving the map as it was.
     */
    method ReviewProduct(p1: Product, rating: Rating, comments: string)
      returns (r: Result<Product, Thrown>)
      requires Valid()
      modifies this
      ensures Valid()
      ensures p1.id !in old(products) ==> r == Failure(NullPointerException) && products == old(products)
      ensures p1.id in old(products) ==>
        && products == Reviewed(old(products), p1, Review(rating, comments))
        && r == Success(products[p1.id].key)
      ensures Grows(old(products), products)
    {
      var reviews := Get(products, p1);
      products := RemoveMapping(products, p1, reviews);
      if reviews.None? {
        return Failure(NullPointerException);
      }
      var list := reviews.value + [Review(rating, comments)];
      var rated := ApplyRating(p1, AverageRating(list));
      products := Put(products, rated, list);
      r := Success(rated);
    }

    /**
      findProduct(id): the key whose id is id, or a ProductManagerException
      naming the id when there is none.
     */
    function FindProduct(id: Int32): (r: Result<Product, Thrown>)
      reads this
      requires Valid()
      ensures r.Success? <==> exists p :: p in Keys(products) && p.id == id
      ensures r.Success? ==> r.value in Keys(products) && r.value.id == id
      ensures r.Failure? ==> r.error == ProductManagerException(NotFoundMessage(id))
    {
      KeysUniqueById(products);
      if id in products then Success(products[id].key)
      else Failure(ProductManagerException(NotFoundMessage(id)))
    }

    /**
      reviewProduct(id, rating, comments): reviews the key findProduct
      returns; null, with nothing changed, when there is no such product.
     */
    method ReviewProductById(id: Int32, rating: Rating, comments: string)
      returns (r: Option<Product>)
      requires Valid()
      modifies this
      ensures Valid()
      ensures id !in old(products) ==> r == None && products == old(products)
      ensures id in old(products) ==>
        && products == Reviewed(old(products), old(products)[id].key, Review(rating, comments))
        && r == Some(products[id].key)
      ensures Grows(old(products), products)
    {
      var found := FindProduct(id);
      if found.Failure? {
        return None;
      }
      var reviewed := ReviewProduct(found.value, rating, comments);
      r := Some(reviewed.value);
    }

    /**
      The grouping of getDiscounts: every product in the group of its
      rating's star text (the per-group discount total is not modelled).
     */
    function DiscountGroups(): (groups: map<string, set<Product>>)
      reads this
      ensures forall p :: p in Keys(products) ==> Stars(p.rating) in groups && p in groups[Stars(p.rating)]
      ensures forall text :: text in groups ==>
        groups[text] != {} && forall p :: p in groups[text] ==> p in Keys(products) && Stars(p.rating) == text
    {
      GroupByStars(Keys(products))
    }
  }
}
