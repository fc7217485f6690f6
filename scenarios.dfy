/**
  A client of ProductManager: the first create of an id wins, two reviews
  append two entries in order, and an unknown id gives null and leaves the
  catalog unchanged; every outcome follows from the operations' contracts.
 */
module CatalogScenarios {
  import opened Wrappers
  import opened Decimals
  import opened Ratings
  import opened Calendar
  import opened Products
  import opened Catalog

  /** A second create on a taken id hands back its own new object but leaves the stored key alone. */
  method FirstCreateWins()
  {
    var pm := new ProductManager(map[]);
    var tea := pm.CreateDrink(101, "Tea", Decimal(199, 2), NotRated);
    var bestBefore: LocalDate := Date(2026, 10, 17);
    var cake := pm.CreateFood(101, "Cake", Decimal(399, 2), FiveStar, bestBefore);
    assert cake.Food? && pm.products[101] == Entry(tea, []);
  }

  /** Two reviews append two entries, in order, and the stored product keeps its name. */
  method TwoReviewsAppend()
  {
    var pm := new ProductManager(map[]);
    var tea := pm.CreateDrink(101, "Tea", Decimal(199, 2), NotRated);
    var first := pm.ReviewProductById(101, FourStar, "Rather weak tea");
    var second := pm.ReviewProductById(101, TwoStar, "Too strong");
    assert pm.products[101].reviews == [Review(FourStar, "Rather weak tea"), Review(TwoStar, "Too strong")];
    assert second == Some(pm.products[101].key) && pm.products[101].key.name == "Tea";
  }

  /** An unknown id is reported, gives null on review, and leaves the catalog as it was. */
  method UnknownIdChangesNothing(loaded: Store)
    requires KeyedById(loaded) && 42 !in loaded
  {
    var pm := new ProductManager(loaded);
    var missing := pm.FindProduct(42);
    assert missing == Failure(ProductManagerException(NotFoundMessage(42)));
    var none := pm.ReviewProductById(42, OneStar, "Which tea?");
    assert none == None && pm.products == loaded;
  }
}
