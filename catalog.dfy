/** The static catalog of src/data/products.ts and the facts the pages and the
    end-to-end scenarios rely on: fifteen products with ids "1" to "15", three of
    them out of stock, grouped five by five by category. */
module Catalog {
  import opened Types
  import opened Text

  const Products: seq<Product> := [
    Product("1", "MacBook Pro 16\"", 2499,
      "Powerful laptop with M2 Pro chip, perfect for developers and creative professionals.",
      "https://images.unsplash.com/photo-1486312338219-ce68d2c6f44d?w=800&h=600&fit=crop",
      Electronics, true, 4.8, 124),
    Product("2", "iPhone 15 Pro", 999,
      "Latest iPhone with titanium design and advanced camera system.",
      "https://images.unsplash.com/photo-1531297484001-80022131f5a1?w=800&h=600&fit=crop",
      Electronics, true, 4.9, 89),
    Product("3", "Dell XPS 13", 1299,
      "Ultra-portable laptop with stunning InfinityEdge display.",
      "https://images.unsplash.com/photo-1488590528505-98d2b5aba04b?w=800&h=600&fit=crop",
      Electronics, true, 4.6, 67),
    Product("4", "iPad Air", 599,
      "Versatile tablet perfect for work, creativity, and entertainment.",
      "https://images.unsplash.com/photo-1649972904349-6e44c42644a7?w=800&h=600&fit=crop",
      Electronics, false, 4.7, 156),
    Product("5", "Samsung Galaxy S24", 849,
      "Premium Android smartphone with advanced AI features.",
      "https://images.unsplash.com/photo-1581091226825-a6a2a5aee158?w=800&h=600&fit=crop",
      Electronics, true, 4.5, 203),
    Product("6", "Clean Code", 45,
      "A handbook of agile software craftsmanship by Robert C. Martin.",
      "https://images.unsplash.com/photo-1513475382585-d06e58bcb0e0?w=800&h=600&fit=crop",
      Books, true, 4.8, 312),
    Product("7", "The Pragmatic Programmer", 42,
      "Your journey to mastery in software development.",
      "https://images.unsplash.com/photo-1507003211169-0a1dd7228f2d?w=800&h=600&fit=crop",
      Books, true, 4.9, 198),
    Product("8", "Design Patterns", 55,
      "Elements of reusable object-oriented software.",
      "https://images.unsplash.com/photo-1481627834876-b7833e8f5570?w=800&h=600&fit=crop",
      Books, true, 4.6, 87),
    Product("9", "JavaScript: The Good Parts", 38,
      "Unearthing the excellence in JavaScript by Douglas Crockford.",
      "https://images.unsplash.com/photo-1544716278-ca5e3f4abd8c?w=800&h=600&fit=crop",
      Books, true, 4.4, 145),
    Product("10", "System Design Interview", 48,
      "An insider guide to system design interviews.",
      "https://images.unsplash.com/photo-1506880018603-83d5b814b5a6?w=800&h=600&fit=crop",
      Books, false, 4.7, 234),
    Product("11", "Premium Cotton T-Shirt", 29,
      "Soft, comfortable, and durable cotton t-shirt in various colors.",
      "https://images.unsplash.com/photo-1521572163474-6864f9cf17ab?w=800&h=600&fit=crop",
      Apparel, true, 4.3, 89),
    Product("12", "Designer Hoodie", 79,
      "Cozy and stylish hoodie perfect for casual wear.",
      "https://images.unsplash.com/photo-1582562124811-c09040d0a901?w=800&h=600&fit=crop",
      Apparel, true, 4.5, 156),
    Product("13", "Denim Jacket", 89,
      "Classic denim jacket that never goes out of style.",
      "https://images.unsplash.com/photo-1551028719-00167b16eac5?w=800&h=600&fit=crop",
      Apparel, true, 4.4, 73),
    Product("14", "Sneakers", 129,
      "Comfortable and stylish sneakers for everyday wear.",
      "https://images.unsplash.com/photo-1549298916-b41d501d3772?w=800&h=600&fit=crop",
      Apparel, true, 4.6, 201),
    Product("15", "Wool Sweater", 95,
      "Warm and comfortable wool sweater for cold weather.",
      "https://images.unsplash.com/photo-1434389677669-e08b4cac3105?w=800&h=600&fit=crop",
      Apparel, false, 4.7, 112)
  ]

  /** The category of the product at position `i`: the catalog lists five
      Electronics, then five Books, then five Apparel. */
  function CategoryAt(i: nat): Category
  {
    if i < 5 then Electronics else if i < 10 then Books else Apparel
  }

  /** Fifteen products; the one at position `i` has the id `i + 1` in decimal. */
  lemma CatalogIds()
    ensures |Products| == 15
    ensures forall i :: 0 <= i < |Products| ==> Products[i].id == NatToString(i + 1)
  {
    forall i | 0 <= i < |Products| ensures Products[i].id == NatToString(i + 1) {
      TwoDigits(i + 1);
    }
  }

  /** Decimal rendering of the numbers 1 to 19. */
  lemma TwoDigits(n: nat)
    requires 1 <= n < 20
    ensures NatToString(n) == if n < 10 then [DigitChar(n)] else ['1', DigitChar(n - 10)]
  {
    if n >= 10 {
      assert n / 10 == 1 && n % 10 == n - 10;
    }
  }

  /** No two products share an id. */
  lemma CatalogIdsDistinct()
    ensures forall i, j :: 0 <= i < |Products| && 0 <= j < |Products| && i != j ==>
      Products[i].id != Products[j].id
  {
    CatalogIds();
    NumberedIdsDistinct(Products);
  }

  /** Ids "1", "2", ... in order are pairwise distinct. */
  lemma NumberedIdsDistinct(ps: seq<Product>)
    requires forall i :: 0 <= i < |ps| ==> ps[i].id == NatToString(i + 1)
    ensures forall i, j :: 0 <= i < |ps| && 0 <= j < |ps| && i != j ==> ps[i].id != ps[j].id
  {
    forall i, j | 0 <= i < |ps| && 0 <= j < |ps| && i != j
      ensures ps[i].id != ps[j].id
    {
      NatToStringInjective(i + 1, j + 1);
    }
  }

  /** Exactly the products with ids "4", "10" and "15" are out of stock. */
  lemma CatalogStock()
    ensures forall i :: 0 <= i < |Products| ==>
      (!Products[i].inStock <==> Products[i].id in ["4", "10", "15"])
  {
    CatalogIds();
  }

  /** The catalog is grouped by category in the order Electronics, Books, Apparel,
      five of each. */
  lemma CatalogGrouping()
    ensures forall i :: 0 <= i < |Products| ==> Products[i].category == CategoryAt(i)
  {
  }

  /** Every price is a positive whole amount. */
  lemma CatalogPricesPositive()
    ensures forall i :: 0 <= i < |Products| ==> Products[i].price > 0
  {
  }
}
