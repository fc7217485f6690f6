/**
  The product family: Product and its two final subclasses Food (with a
  best-before date) and Drink. Products are immutable values; equality and
  hashing look at the id alone.
 */
module Products {
  import opened Wrappers
  import opened Decimals
  import opened Ratings
  import opened Text
  import opened Calendar

  /** A Java int. */
  type Int32 = x: int | -0x8000_0000 <= x < 0x8000_0000

  /** Product, Food and Drink: Food alone stores a best-before date. */
  datatype Product =
    | Product(id: Int32, name: string, price: Decimal, rating: Rating)
    | Food(id: Int32, name: string, price: Decimal, rating: Rating, bestBefore: LocalDate)
    | Drink(id: Int32, name: string, price: Decimal, rating: Rating)

  /** Product.DISCOUNT_RATE: BigDecimal.valueOf(0.1), unscaled 1 at scale 1. */
  const DiscountRate := Decimal(1, 1)

  /**
    Product.getDiscount: price × DISCOUNT_RATE at scale 2, HALF_UP. The
    result, in hundredths, is price × 10 rounded half-up.
   */
  function BaseDiscount(p: Product): (r: Decimal)
    ensures r.scale == 2
    ensures RoundsHalfUpScaled(r.unscaled, p.price.unscaled, 1 - p.price.scale)
  {
    SetScaleHalfUp(Multiply(p.price, DiscountRate), 2)
  }

  /** Drink's discount window: strictly after 17:30 and strictly before 18:30. */
  predicate InHappyHour(now: Time)
    ensures InHappyHour(now) <==> TimeOf(17, 30) < now < TimeOf(18, 30)
    ensures InHappyHour(now) ==> 17 * 60 + 30 <= now / (60 * 1_000_000_000) < 18 * 60 + 30
  {
    IsAfter(now, TimeOf(17, 30)) && IsBefore(now, TimeOf(18, 30))
  }

  /**
    getDiscount, dispatched on the variant, with the clock readings that
    Food and Drink make passed in: a Food is discounted only on its
    best-before day, a Drink only inside the evening window, a plain
    Product always.
   */
  function Discount(p: Product, today: LocalDate, now: Time): (r: Decimal)
    ensures r == BaseDiscount(p) || r == Zero
    ensures p.Product? ==> r == BaseDiscount(p)
    ensures p.Food? ==> (r == BaseDiscount(p) <==> p.bestBefore == today)
    ensures p.Drink? ==> (r == BaseDiscount(p) <==> InHappyHour(now))
  {
    match p
    case Product(_, _, _, _) => BaseDiscount(p)
    case Food(_, _, _, _, bestBefore) => if bestBefore == today then BaseDiscount(p) else Zero
    case Drink(_, _, _, _) => if InHappyHour(now) then BaseDiscount(p) else Zero
  }

  /**
    Ten percent of 1.99 is 0.199, discounted as 0.20; of 2.95 it is 0.295, a
    tie, which HALF_UP takes away from zero to 0.30.
   */
  lemma BaseDiscountExamples(id: Int32, name: string, r: Rating)
    ensures BaseDiscount(Product(id, name, Decimal(199, 2), r)) == Decimal(20, 2)
    ensures BaseDiscount(Product(id, name, Decimal(295, 2), r)) == Decimal(30, 2)
  {
    var d1 := BaseDiscount(Product(id, name, Decimal(199, 2), r));
    assert Pow10(1) == 10;
    RoundsHalfUpUnique(d1.unscaled, 20, 199, 10);
    var d2 := BaseDiscount(Product(id, name, Decimal(295, 2), r));
    RoundsHalfUpUnique(d2.unscaled, 30, 295, 10);
  }

  /** Product.getRating: the rating that re-rating the product with leaves it as it is. */
  function GetRating(p: Product): (r: Rating)
    ensures ApplyRating(p, r) == p
    ensures forall other: Rating :: ApplyRating(p, other) == p ==> other == r
  {
    p.rating
  }

  /**
    applyRating(newRating): a new product of the same class with every
    other field copied and the rating replaced.
   */
  function ApplyRating(p: Product, newRating: Rating): (q: Product)
    ensures q.id == p.id && q.name == p.name && q.price == p.price && q.rating == newRating
    ensures q.Product? == p.Product? && q.Food? == p.Food? && q.Drink? == p.Drink?
    ensures p.Food? ==> q.bestBefore == p.bestBefore
  {
    p.(rating := newRating)
  }

  /** Reteable.applyRating(int stars): applyRating(convert(stars)). */
  function ApplyRatingStars(p: Product, stars: int): (q: Product)
    ensures Equals(q, Some(p)) && q.name == p.name && q.price == p.price
    ensures 0 <= stars <= 5 ==> Ordinal(q.rating) == stars
    ensures !(0 <= stars <= 5) ==> q.rating == NotRated
  {
    ApplyRating(p, Convert(stars))
  }

  /** getBestBefore: a Food's stored date; for Product and Drink, today. */
  function GetBestBefore(p: Product, today: LocalDate): (d: Date)
    ensures p.Food? ==> d == p.bestBefore
    ensures !p.Food? ==> d == today
  {
    if p.Food? then p.bestBefore else today
  }

  /**
    Product.equals(o): true exactly when o is a Product with the same id.
    None stands for null and for any object that is not a Product.
   */
  function Equals(p: Product, o: Option<Product>): (b: bool)
    ensures b <==> o.Some? && o.value.id == p.id
  {
    match o
    case None => false
    case Some(q) => p == q || p.id == q.id
  }

  /** Objects.hash(id): 31 + id, wrapped to 32 bits. */
  function HashCode(p: Product): (h: Int32)
    ensures (h - (31 + p.id)) % 0x1_0000_0000 == 0
  {
    Wrap32(31 + p.id)
  }

  function Wrap32(x: int): Int32
  {
    (x + 0x8000_0000) % 0x1_0000_0000 - 0x8000_0000
  }

  /** Product.toString: id, name, price, stars and best-before date joined with ", ". */
  function ToString(p: Product, today: LocalDate): (s: string)
    ensures var id := IntText(p.id); |id| + 2 <= |s| && s[..|id|] == id && s[|id|..|id| + 2] == ", "
    ensures var date := DateText(GetBestBefore(p, today)); |date| <= |s| && s[|s| - |date|..] == date
  {
    var id, date := IntText(p.id), DateText(GetBestBefore(p, today));
    var middle := p.name + ", " + DecimalText(p.price) + ", " + Stars(p.rating) + ", ";
    FieldFrame(id, middle, date);
    id + ", " + middle + date
  }

  /** Product.equals is an equivalence relation on products. */
  lemma EqualsIsEquivalence(p: Product, q: Product, r: Product)
    ensures Equals(p, Some(p))
    ensures Equals(p, Some(q)) ==> Equals(q, Some(p))
    ensures Equals(p, Some(q)) && Equals(q, Some(r)) ==> Equals(p, Some(r))
  {
  }

  /** Adding 31 and wrapping to 32 bits loses nothing on Java ints. */
  lemma Wrap32Injective(a: Int32, b: Int32)
    requires Wrap32(31 + a) == Wrap32(31 + b)
    ensures a == b
  {
    var m := 0x1_0000_0000;
    var x, y := 31 + a + 0x8000_0000, 31 + b + 0x8000_0000;
    assert x % m == y % m;
    assert x == (x / m) * m + x % m && y == (y / m) * m + y % m;
    assert 0 <= x / m <= 1 && 0 <= y / m <= 1;
  }

  /**
    hashCode agrees with equals both ways: equal products hash equally, and
    since Objects.hash(id) is a bijection on ints, equal hashes mean equal ids.
   */
  lemma HashCodeMatchesEquals(p: Product, q: Product)
    ensures Equals(p, Some(q)) <==> HashCode(p) == HashCode(q)
  {
    if HashCode(p) == HashCode(q) {
      Wrap32Injective(p.id, q.id);
    }
  }

  /**
    Re-rating keeps identity: the new product equals the receiver, hashes
    like it, and (values being immutable) the receiver is unchanged.
   */
  lemma ApplyRatingKeepsIdentity(p: Product, r: Rating)
    ensures Equals(ApplyRating(p, r), Some(p)) && Equals(p, Some(ApplyRating(p, r)))
    ensures HashCode(ApplyRating(p, r)) == HashCode(p)
    ensures ApplyRating(p, r) == p <==> p.rating == r
  {
  }

  /** A re-rated Food is a Food with the same id, name, price and best-before date. */
  lemma FoodApplyRating(p: Product, r: Rating)
    requires p.Food?
    ensures ApplyRating(p, r) == Food(p.id, p.name, p.price, r, p.bestBefore)
    ensures Equals(ApplyRating(p, r), Some(p))
  {
  }

  /** A re-rated Drink is a Drink with the same id, name and price. */
  lemma DrinkApplyRating(p: Product, r: Rating)
    requires p.Drink?
    ensures ApplyRating(p, r) == Drink(p.id, p.name, p.price, r)
  {
  }

  /** Food.getDiscount: the base discount on the best-before day, BigDecimal.ZERO on any other. */
  lemma FoodDiscountRule(p: Product, today: LocalDate, now: Time)
    requires p.Food?
    ensures p.bestBefore == today ==> Discount(p, today, now) == BaseDiscount(p)
    ensures p.bestBefore != today ==> Discount(p, today, now) == Zero
  {
  }

  /**
    Drink.getDiscount: the base discount strictly between 17:30 and 18:30,
    BigDecimal.ZERO otherwise, including at 17:30 and at 18:30 exactly.
   */
  lemma DrinkDiscountRule(p: Product, today: LocalDate, now: Time)
    requires p.Drink?
    ensures TimeOf(17, 30) < now < TimeOf(18, 30) ==> Discount(p, today, now) == BaseDiscount(p)
    ensures !(TimeOf(17, 30) < now < TimeOf(18, 30)) ==> Discount(p, today, now) == Zero
    ensures Discount(p, today, TimeOf(17, 30)) == Zero && Discount(p, today, TimeOf(18, 30)) == Zero
  {
  }

  /** getDiscount takes one of two values, and the two are never equal. */
  lemma DiscountIsBaseOrZero(p: Product, today: LocalDate, now: Time)
    ensures Discount(p, today, now) in {BaseDiscount(p), Zero}
    ensures BaseDiscount(p) != Zero
  {
  }

  /** Product.toString opens with the id, which reads back from the text before the first comma. */
  lemma ToStringLeadsWithId(p: Product, today: LocalDate)
    ensures var s, k := ToString(p, today), |IntText(p.id)|;
      && k + 2 <= |s| && s[..k] == IntText(p.id) && s[k..k + 2] == ", "
      && ',' !in s[..k] && ParseInt(s[..k]) == p.id
  {
    IntTextHasNoComma(p.id);
    IntTextRoundTrip(p.id);
  }

  /** Where the first field, its separator and the last field sit in a joined line. */
  lemma FieldFrame(first: string, middle: string, last: string)
    ensures var s := first + ", " + middle + last;
      && |first| + 2 <= |s| && s[..|first|] == first && s[|first|..|first| + 2] == ", "
      && |last| <= |s| && s[|s| - |last|..] == last
  {
  }
}
