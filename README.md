# Product catalog with ratings and reviews

This project models the core of a small product-management library: the
`ProductManager` catalog and the product family it stores.

The catalog is a `HashMap<Product, List<Review>>`. Products are compared by
id alone, so the map holds at most one key object per id. The catalog can:

- create products, either a `Food` or a `Drink`;
- look a product up by id;
- add reviews;
- group the products by the star text of their rating.

Adding a review re-rates the product with the rounded mean of every review's
rating ordinal.

Products are immutable. `applyRating` builds a new object of the same class
with every other field copied.

A product's discount is 10% of its price at two decimals, rounded `HALF_UP`:

- a plain `Product` always gets it;
- a `Food` only on its best-before day;
- a `Drink` only strictly between 17:30 and 18:30.

Modules:

- `Wrappers` holds `Option` and `Result`. They stand for Java's `null` returns and thrown exceptions.
- `Decimals` holds the part of `BigDecimal` that the discount uses: `multiply` and `setScale(n, HALF_UP)`.
- `Ratings` holds the `Rating` scale and the static and default members of `Reteable`.
- `Text` holds `Integer.toString` and `BigDecimal.toString`, and the integer parser that undoes the former.
- `Calendar` holds `LocalDate` and `LocalTime`. A `LocalDate` is a subset type admitting only real proleptic-Gregorian dates. Clock readings are parameters `today` and `now`.
- `Products` models `Product`, `Food` and `Drink` as one datatype with three constructors.
- `Catalog` holds the reviews, the `java.util.Map` operations on the id-keyed store, the class `ProductManager`, and the rating arithmetic with its lemmas.
- `CatalogScenarios` is a client of the catalog. It checks three things: the first create of an id wins; two reviews append two entries, in order; an unknown id gives null and leaves the catalog unchanged.

`createProduct` returns the object it has just built even when the id is already taken. `putIfAbsent`'s result is ignored and the stored entry is left alone.

## Model

| member | source | states |
|---|---|---|
| Decimals.SetScaleHalfUp | src/labs/pm/data/Product.java:71 | the result has the requested scale and its unscaled value is the HALF_UP rounding of the exact value (ties away from zero) |
| Decimals.RoundsHalfUpUnique | src/labs/pm/data/Product.java:71 | a HALF_UP rounding is unique, so setScale has exactly one answer |
| Ratings.Ordinal | src/labs/pm/data/ProductManager.java:241 | a rating's ordinal is its position in Rating.values() |
| Ratings.DefaultGetRating | src/labs/pm/data/Reteable.java:23-25 | the default rating is the lowest, ordinal 0 (NOT_RATED) |
| Ratings.Convert | src/labs/pm/data/Reteable.java:27-29 | stars 0..5 give the rating with that ordinal; any other int gives NOT_RATED |
| Ratings.ConvertOrdinal | src/labs/pm/data/Reteable.java:27-29 | convert undoes ordinal for every rating |
| Ratings.StarsShape | src/labs/pm/data/Product.java:91 | the star text has five glyphs, and the first ordinal of them are filled |
| Ratings.StarsInjective | src/labs/pm/data/ProductManager.java:339 | distinct ratings have distinct star texts |
| Text.IntTextRoundTrip | src/labs/pm/data/Product.java:91 | parsing the rendered id gives back the id |
| Text.IntTextHasNoComma | src/labs/pm/data/Product.java:91 | a rendered int holds no comma, so it is a single field of the output line |
| Calendar.TimeOf | src/labs/pm/data/Drink.java:26 | LocalTime.of(h, m) is a whole number of minutes, h*60+m, into the day |
| Products.BaseDiscount | src/labs/pm/data/Product.java:70-72 | the discount has scale 2 and, in hundredths, is price × 10 rounded HALF_UP |
| Products.BaseDiscountExamples | src/labs/pm/data/Product.java:70-72 | 1.99 gets a discount of 0.20, and 2.95 gets 0.30 (the tie rounds up) |
| Products.Discount | src/labs/pm/data/Food.java:30-33 | the discount is the base discount or ZERO: always the base for a Product, the base iff bestBefore is today for a Food, the base iff the time is in the evening window for a Drink |
| Products.FoodDiscountRule | src/labs/pm/data/Food.java:30-33 | a Food gets the base discount on its best-before day and ZERO on any other day |
| Products.DrinkDiscountRule | src/labs/pm/data/Drink.java:22-27 | a Drink gets the base discount strictly between 17:30 and 18:30, and ZERO otherwise, including at both boundaries |
| Products.DiscountIsBaseOrZero | src/labs/pm/data/Food.java:32 | getDiscount yields one of two values, and they differ, because ZERO has scale 0 |
| Products.ApplyRating | src/labs/pm/data/Product.java:77-79 | the re-rated product keeps its class, id, name, price and best-before date, and has the new rating |
| Products.FoodApplyRating | src/labs/pm/data/Food.java:35-39 | a re-rated Food is the Food with the same fields and the new rating, and it equals the original |
| Products.DrinkApplyRating | src/labs/pm/data/Drink.java:29-32 | a re-rated Drink is the Drink with the same fields and the new rating |
| Products.ApplyRatingStars | src/labs/pm/data/Reteable.java:31-33 | the result equals the product and keeps its name and price; its rating has ordinal stars for 0..5, and is NOT_RATED otherwise |
| Products.ApplyRatingKeepsIdentity | src/labs/pm/data/Product.java:94-104 | re-rating gives an equal product with the same hash, and a different value unless the rating is unchanged |
| Products.GetBestBefore | src/labs/pm/data/Product.java:85-87 | a Food's stored date, and today for Product and Drink |
| Products.EqualsIsEquivalence | src/labs/pm/data/Product.java:94-99 | equals is reflexive, symmetric and transitive |
| Products.Wrap32Injective | src/labs/pm/data/Product.java:101-104 | Objects.hash(id), which is 31 + id wrapped to 32 bits, is injective on ints |
| Products.HashCodeMatchesEquals | src/labs/pm/data/Product.java:101-104 | equal products have equal hashes, and equal hashes mean equal products |
| Products.ToStringLeadsWithId | src/labs/pm/data/Product.java:89-92 | toString starts with the id followed by ", ", and that first field parses back to the id |
| Products.ToString | src/labs/pm/data/Product.java:89-92 | toString opens with the id and ", " and ends with the best-before date that the overridden getBestBefore gives (a Food's own date, today otherwise) |
| Products.Equals | src/labs/pm/data/Product.java:94-99 | equals holds exactly when the other object is a Product with the same id |
| Products.HashCode | src/labs/pm/data/Product.java:101-104 | hashCode is 31 + id modulo 2^32, as Objects.hash(id) computes it in int arithmetic |
| Products.GetRating | src/labs/pm/data/Product.java:74-76 | the reported rating is the one that applyRating leaves unchanged, and no other rating does |
| Products.InHappyHour | src/labs/pm/data/Drink.java:26 | holds exactly when the time is strictly after 17:30 and strictly before 18:30, so its minute of day is in 17:30..18:29 |
| Catalog.KeysUniqueById | src/labs/pm/data/ProductManager.java:57 | the map holds one key per id, and an id is present iff some key has it |
| Catalog.Get | src/labs/pm/data/ProductManager.java:232 | get finds a list iff some key equals the argument, and it is that key's list |
| Catalog.PutIfAbsent | src/labs/pm/data/ProductManager.java:190 | a taken id leaves the map unchanged; a new id adds exactly one mapping to the given key and list; existing entries are kept |
| Catalog.PutIfAbsentIdempotent | src/labs/pm/data/ProductManager.java:207 | creating the same id twice leaves the map as the first call left it, keyed by the first object |
| Catalog.RemoveMapping | src/labs/pm/data/ProductManager.java:234 | remove(key, value) drops the entry only when its list equals the value, and nothing else changes |
| Catalog.Put | src/labs/pm/data/ProductManager.java:246 | put maps the id to the new list and keeps the key object already stored; a new id is keyed by the argument |
| Catalog.PutKeepsStaleKey | src/labs/pm/data/ProductManager.java:232-246 | put alone would keep the old, stale key, while remove-then-put stores the re-rated one |
| Catalog.SumOrdinals | src/labs/pm/data/ProductManager.java:240-241 | the ordinal sum of n reviews is at most 5n |
| Catalog.RoundedMean | src/labs/pm/data/ProductManager.java:239-244 | Math.round of the average is the mean rounded half up, and 0 for an empty stream |
| Catalog.AverageRating | src/labs/pm/data/ProductManager.java:238-244 | the new rating's ordinal is exactly the rounded mean, so convert never falls back to NOT_RATED |
| Catalog.MeanAtMost | src/labs/pm/data/ProductManager.java:239-244 | a rounded mean of values at most hi is at most hi |
| Catalog.MeanAtLeast | src/labs/pm/data/ProductManager.java:239-244 | a rounded mean of values at least lo is at least lo |
| Catalog.SumBetween | src/labs/pm/data/ProductManager.java:240-241 | ordinals within lo..hi sum to between lo·n and hi·n |
| Catalog.AverageWithinReviews | src/labs/pm/data/ProductManager.java:238-244 | the recomputed rating lies between the lowest and highest rating reviewed |
| Catalog.Reviewed | src/labs/pm/data/ProductManager.java:232-246 | the store after a review still has each entry under its own key's id |
| Catalog.ReviewedEntry | src/labs/pm/data/ProductManager.java:232-246 | after a review: same ids; the list is the old list plus the review (one longer); the key is the argument re-rated with the rounded mean, in 0..5; other entries unchanged |
| Catalog.GrowsTransitive | src/labs/pm/data/ProductManager.java:236 | review lists only grow, across any chain of operations |
| Catalog.ReviewedAll | src/labs/pm/data/ProductManager.java:275-289 | repeated reviews by id keep each entry under its own key's id |
| Catalog.ReviewedAllSummary | src/labs/pm/data/ProductManager.java:275-289 | after any sequence of reviews on one id: the list is the old list plus all reviews in order, the rating is the rounded mean over all of them, id/name/price/class are kept, and other entries are unchanged |
| Catalog.TeaReviewsAverage | src/labs/pm/data/ProductManager.java:238-244 | reviews 4,4,4,4,1 average 3.4, which gives THREE_STAR |
| Catalog.TeaScenario | src/labs/pm/data/ProductManager.java:275-289 | a new product reviewed 4,4,4,4,1 ends THREE_STAR with all five reviews kept |
| Catalog.CoffeeReviewsAverage | src/labs/pm/app/Shop.java:129-131 | reviews 3,1,5 average exactly 3, which gives THREE_STAR |
| Catalog.CoffeeScenario | src/labs/pm/app/Shop.java:127-131 | Coffee, created FOUR_STAR and then reviewed 3,1,5, ends THREE_STAR; the creation rating plays no part |
| Catalog.GroupByStars | src/labs/pm/data/ProductManager.java:335-347 | every key is in the group of its star text, and every group is non-empty and holds only keys with that text |
| Catalog.GroupsAreRatings | src/labs/pm/data/ProductManager.java:335-347 | two keys share a group iff they share a rating |
| Catalog.ProductManager.constructor | src/labs/pm/data/ProductManager.java:89-91 | the manager starts with the catalog as loaded |
| Catalog.ProductManager.CreateFood | src/labs/pm/data/ProductManager.java:185-201 | returns the Food it built; the catalog becomes putIfAbsent of it with an empty list; lists only grow |
| Catalog.ProductManager.CreateDrink | src/labs/pm/data/ProductManager.java:202-219 | returns the Drink it built; the catalog becomes putIfAbsent of it with an empty list; lists only grow |
| Catalog.ProductManager.ReviewProduct | src/labs/pm/data/ProductManager.java:221-253 | a present product: the catalog becomes Reviewed, and the re-rated key is returned; an absent product: NullPointerException, catalog unchanged |
| Catalog.ProductManager.FindProduct | src/labs/pm/data/ProductManager.java:255-272 | succeeds iff some key has the id, and returns that key; otherwise throws ProductManagerException with the id in its message; reads only |
| Catalog.ProductManager.ReviewProductById | src/labs/pm/data/ProductManager.java:275-289 | an unknown id gives null and leaves the catalog unchanged; a known id reviews the stored key and returns it re-rated |
| Catalog.ProductManager.DiscountGroups | src/labs/pm/data/ProductManager.java:328-353 | every product is in the group of its rating's star text, and each group is non-empty and holds only such products, so the keys are exactly the star texts that occur |

## Left out

- Locking: each modelled operation is one atomic step. Create and review hold the write lock; findProduct and getDiscounts hold the read lock.
- Lock upgrade at start-up: `loadProduct` holds the read lock while `parseProduct` calls `createProduct`, which asks for the write lock. `ReentrantReadWriteLock` never upgrades, so the constructor blocks on the first product record that parses. The model's constructor accepts any loaded catalog, which includes the empty one the source can actually reach.
- Concurrent reports: `printProductReport` sorts a stored review list while holding only the shared read lock, so two reports at once reorder the same list.
- Null arguments: in the model a rating, name, price or best-before date is never null. In the source, `reviewProduct(p1, null, c)` on a present product first removes the entry and then throws (in `Review` or at `getRating().ordinal()`), so the product and all its reviews leave the catalog. A Food created with a null `bestBefore` makes its `getDiscount`, and hence `getDiscounts`, throw.
- Logging.
- The catch-all `return null` in `createProduct`. Building a product and calling `putIfAbsent` cannot throw here.
- Locale-dependent formatting and reports: `printProductReport`, `printProducts` and the resource formatters.
- Persistence: `dumpData`, `restoreData`, `loadAllProducts` and `loadReviews`. The constructor takes the loaded catalog as an argument.
- Parsing: `parseReview` and `parseProduct`.
- The in-place `sort(reviews)` in `printProductReport`. It reorders a stored list, and the report is left out, so the model keeps lists in insertion order.
- Review's comparison order.
- Catalog.ProductManager.DiscountGroups: gives each star text its set of products. It does not give the `summingDouble` total of their discounts or its currency formatting. The model has no floating point or locale.
- Catalog.RoundedMean: computes the mean of the ordinals exactly in integers. The source goes through a `double` average and `Math.round`. The two agree because a mean of small non-negative integers is represented exactly enough to round the same.
- Products.Equals: takes an `Option<Product>`. `None` stands both for `null` and for any object that is not a `Product`, since the model has no other classes.
- Ratings.Stars: Rating.java is not part of this model. `getStars` is taken as one filled star per point followed by empty stars up to five.
- Clock reads become parameters: `LocalDate.now()` becomes `today`, and `LocalTime.now()` becomes `now`, a nano-of-day.
- Java list identity: the model does not track which list object is shared, so `ArrayList` aliasing is not represented.
