/** The product listing page (src/pages/Products.tsx): a category selection, the
    products shown for it, the "Showing N products in C" label and the message
    shown when nothing matches. */
module ProductsPage {
  import opened Types
  import opened Text
  import Catalog

  /** The selected category: 'All' or one of the three product categories. */
  datatype Selection = All | Only(category: Category)

  /** The page opens with every category selected. */
  const InitialSelection: Selection := All

  /** `products.filter(product => product.category === c)`. */
  function FilterByCategory(products: seq<Product>, c: Category): (r: seq<Product>)
    ensures |r| <= |products|
  {
    if products == [] then []
    else
      var rest := FilterByCategory(products[1..], c);
      if products[0].category == c then [products[0]] + rest else rest
  }

  /** The filter keeps a product exactly when it is in the list and has the
      category. */
  lemma {:induction false} FilterMembership(products: seq<Product>, c: Category, p: Product)
    ensures p in FilterByCategory(products, c) <==> p in products && p.category == c
  {
    if products != [] {
      FilterMembership(products[1..], c, p);
      assert p in products <==> p == products[0] || p in products[1..];
    }
  }

  /** The products the grid shows for a selection. */
  function Filtered(products: seq<Product>, sel: Selection): seq<Product>
  {
    match sel
    case All => products
    case Only(c) => FilterByCategory(products, c)
  }

  /** `a` is `b` with some entries dropped and the rest kept in order. */
  predicate IsSubsequence(a: seq<Product>, b: seq<Product>)
  {
    if b == [] then a == []
    else (a != [] && a[0] == b[0] && IsSubsequence(a[1..], b[1..])) || IsSubsequence(a, b[1..])
  }

  /** 'All' shows the catalog as it is; a category shows exactly the products of
      that category, an order-preserving selection of the catalog. */
  lemma {:induction false} FilteredSpec(products: seq<Product>, sel: Selection)
    ensures sel == All ==> Filtered(products, sel) == products
    ensures sel.Only? ==> forall p :: p in Filtered(products, sel) <==> p in products && p.category == sel.category
    ensures IsSubsequence(Filtered(products, sel), products)
    ensures |Filtered(products, sel)| <= |products|
  {
    match sel
    case All => SubsequenceRefl(products);
    case Only(c) =>
      FilterIsSubsequence(products, c);
      forall p ensures p in Filtered(products, sel) <==> p in products && p.category == c {
        FilterMembership(products, c, p);
      }
  }

  lemma {:induction false} SubsequenceRefl(s: seq<Product>)
    ensures IsSubsequence(s, s)
  {
    if s != [] {
      SubsequenceRefl(s[1..]);
    }
  }

  /** The category filter keeps its products in catalog order. */
  lemma {:induction false} FilterIsSubsequence(products: seq<Product>, c: Category)
    ensures IsSubsequence(FilterByCategory(products, c), products)
  {
    if products != [] {
      FilterIsSubsequence(products[1..], c);
    }
  }

  /** The three category filters split the catalog: together they hold every
      product exactly as often as the catalog does. */
  lemma {:induction false} FiltersPartition(products: seq<Product>)
    ensures multiset(FilterByCategory(products, Electronics))
          + multiset(FilterByCategory(products, Books))
          + multiset(FilterByCategory(products, Apparel)) == multiset(products)
    ensures |FilterByCategory(products, Electronics)| + |FilterByCategory(products, Books)|
          + |FilterByCategory(products, Apparel)| == |products|
  {
    if products != [] {
      FiltersPartition(products[1..]);
      assert products == [products[0]] + products[1..];
    }
  }

  /** Filtering a concatenation filters each part. */
  lemma {:induction false} FilterAppend(a: seq<Product>, b: seq<Product>, c: Category)
    ensures FilterByCategory(a + b, c) == FilterByCategory(a, c) + FilterByCategory(b, c)
  {
    if a == [] {
      assert a + b == b;
    } else {
      var ab := a + b;
      assert ab[0] == a[0];
      assert ab[1..] == a[1..] + b;
      FilterAppend(a[1..], b, c);
    }
  }

  /** A run of products of one category passes that category's filter whole and
      every other category's filter not at all. */
  lemma {:induction false} FilterUniform(s: seq<Product>, c: Category, d: Category)
    requires forall i :: 0 <= i < |s| ==> s[i].category == c
    ensures FilterByCategory(s, d) == if c == d then s else []
  {
    if s != [] {
      FilterUniform(s[1..], c, d);
    }
  }

  /** Text of the products-count paragraph: "Showing N product", an "s" unless N is
      one, and " in C" unless every category is selected. */
  function CountLabel(n: nat, sel: Selection): string
  {
    "Showing " + NatToString(n) + " product" + Plural(n) + CategorySuffix(sel)
  }

  function Plural(n: nat): string
  {
    if n != 1 then "s" else ""
  }

  function CategorySuffix(sel: Selection): string
  {
    match sel
    case All => ""
    case Only(c) => " in " + CategoryName(c)
  }

  /** `t` occurs in `s` at some position. */
  predicate HasInfix(s: string, t: string)
  {
    exists i :: 0 <= i <= |s| - |t| && InfixAt(s, t, i)
  }

  predicate InfixAt(s: string, t: string, i: int)
  {
    0 <= i <= |s| - |t| && s[i..i + |t|] == t
  }

  /** The label reads back: the number after "Showing " is N, the letter after
      " product" is an "s" exactly when N is not one. */
  lemma CountLabelReadsBack(n: nat, sel: Selection)
    ensures |CountLabel(n, sel)| >= 16 + |NatToString(n)|
    ensures CountLabel(n, sel)[..8] == "Showing "
    ensures ParseNat(CountLabel(n, sel)[8..8 + |NatToString(n)|]) == n
    ensures CountLabel(n, sel)[8 + |NatToString(n)|..16 + |NatToString(n)|] == " product"
    ensures (16 + |NatToString(n)| < |CountLabel(n, sel)| && CountLabel(n, sel)[16 + |NatToString(n)|] == 's') <==> n != 1
  {
    var d := NatToString(n);
    var tail := " product" + Plural(n) + CategorySuffix(sel);
    CountLabelParts(n, sel);
    TailShape(n, sel);
    SplitLabel(d, tail);
    ParseNatToString(n);
  }

  /** What follows the number: " product", then an "s" exactly when N is not one. */
  lemma TailShape(n: nat, sel: Selection)
    ensures |" product" + Plural(n) + CategorySuffix(sel)| >= 8
    ensures (" product" + Plural(n) + CategorySuffix(sel))[..8] == " product"
    ensures (|" product" + Plural(n) + CategorySuffix(sel)| > 8 &&
             (" product" + Plural(n) + CategorySuffix(sel))[8] == 's') <==> n != 1
  {
    var tail := " product" + Plural(n) + CategorySuffix(sel);
    assert tail[..8] == " product";
    if n == 1 && |tail| > 8 {
      assert tail[8] == CategorySuffix(sel)[0] == ' ';
    }
  }

  /** The label cut at the end of "Showing ", at the end of the number and eight
      characters further. */
  lemma SplitLabel(d: string, tail: string)
    requires |tail| >= 8
    ensures |"Showing " + d + tail| == 8 + |d| + |tail|
    ensures ("Showing " + d + tail)[..8] == "Showing "
    ensures ("Showing " + d + tail)[8..8 + |d|] == d
    ensures ("Showing " + d + tail)[8 + |d|..16 + |d|] == tail[..8]
    ensures |tail| > 8 ==> ("Showing " + d + tail)[16 + |d|] == tail[8]
  {
  }

  lemma CountLabelParts(n: nat, sel: Selection)
    ensures CountLabel(n, sel) == "Showing " + NatToString(n) + (" product" + Plural(n) + CategorySuffix(sel))
  {
  }

  /** The label names a category, " in C", exactly when a single category is
      selected. */
  lemma CountLabelNamesCategory(n: nat, sel: Selection)
    ensures HasInfix(CountLabel(n, sel), " in ") <==> sel.Only?
  {
    var text, d := CountLabel(n, sel), NatToString(n);
    var plural := Plural(n);
    var head := "Showing " + d + " product" + plural;
    match sel
    case All =>
      assert text == head;
      forall i | InfixAt(text, " in ", i) ensures false {
        assert text[i] == text[i..i + 4][0] && text[i + 1] == text[i..i + 4][1];
        SpaceNotBeforeI(n, i);
      }
    case Only(c) =>
      var k := |head|;
      assert text == head + " in " + CategoryName(c);
      assert text[k..k + 4] == " in ";
      assert InfixAt(text, " in ", k);
  }

  /** In the label of the 'All' selection no space is followed by an "i". */
  lemma SpaceNotBeforeI(n: nat, i: nat)
    requires i + 1 < |CountLabel(n, All)|
    ensures CountLabel(n, All)[i] == ' ' ==> CountLabel(n, All)[i + 1] != 'i'
  {
    var d := NatToString(n);
    var text := CountLabel(n, All);
    var plural := Plural(n);
    assert text == "Showing " + d + " product" + plural;
    if i < 8 {
      assert text[i] == "Showing "[i];
      if i == 7 {
        assert text[8] == d[0];
      }
    } else if i < 8 + |d| {
      assert text[i] == d[i - 8];
    } else {
      assert text[i] == " product"[i - 8 - |d|];
      assert text[i + 1] == (" product" + plural)[i + 1 - 8 - |d|];
    }
  }

  /** As written, the end-to-end check after choosing 'All' asserts that the label
      does not contain "in"; every label contains it, in the word "Showing". */
  lemma AllLabelContainsIn(n: nat)
    ensures HasInfix(CountLabel(n, All), "in")
  {
    assert CountLabel(n, All)[4..6] == "in";
    assert InfixAt(CountLabel(n, All), "in", 4);
  }

  /** The message shown when the grid is empty. */
  predicate ShowsNoProductsMessage(grid: seq<Product>)
  {
    |grid| == 0
  }

  /** A fifteen-product list grouped five by five as Electronics, Books, Apparel
      filters into its three blocks. */
  lemma {:induction false} GroupedFilter(ps: seq<Product>, d: Category)
    requires |ps| == 15
    requires forall i :: 0 <= i < |ps| ==> ps[i].category == Catalog.CategoryAt(i)
    ensures FilterByCategory(ps, d) ==
      match d
      case Electronics => ps[..5]
      case Books => ps[5..10]
      case Apparel => ps[10..]
    ensures |FilterByCategory(ps, d)| == 5
  {
    var e, b, a := ps[..5], ps[5..10], ps[10..];
    assert ps == (e + b) + a;
    UniformBlock(ps, 0, 5, Electronics, d);
    UniformBlock(ps, 5, 10, Books, d);
    UniformBlock(ps, 10, 15, Apparel, d);
    assert ps[0..5] == e && ps[10..15] == a;
    FilterAppend(e + b, a, d);
    FilterAppend(e, b, d);
  }

  /** A slice of the grouped list inside one category's block filters whole or
      to nothing. */
  lemma UniformBlock(ps: seq<Product>, lo: nat, hi: nat, c: Category, d: Category)
    requires lo <= hi <= |ps|
    requires forall i :: 0 <= i < |ps| ==> ps[i].category == Catalog.CategoryAt(i)
    requires forall i :: lo <= i < hi ==> Catalog.CategoryAt(i) == c
    ensures FilterByCategory(ps[lo..hi], d) == if c == d then ps[lo..hi] else []
  {
    var s := ps[lo..hi];
    assert forall i :: 0 <= i < |s| ==> s[i] == ps[lo + i];
    FilterUniform(s, c, d);
  }

  /** On the shipped catalog each category shows its block of five products. */
  lemma CatalogByCategory()
    ensures FilterByCategory(Catalog.Products, Electronics) == Catalog.Products[..5]
    ensures FilterByCategory(Catalog.Products, Books) == Catalog.Products[5..10]
    ensures FilterByCategory(Catalog.Products, Apparel) == Catalog.Products[10..]
  {
    Catalog.CatalogGrouping();
    GroupedFilter(Catalog.Products, Electronics);
    GroupedFilter(Catalog.Products, Books);
    GroupedFilter(Catalog.Products, Apparel);
  }

  /** On the shipped catalog the page opens on all fifteen products, each
      category shows five, and no selection shows the no-products message. */
  lemma CatalogListing(sel: Selection)
    ensures Filtered(Catalog.Products, InitialSelection) == Catalog.Products
    ensures |Filtered(Catalog.Products, sel)| == if sel == All then 15 else 5
    ensures !ShowsNoProductsMessage(Filtered(Catalog.Products, sel))
  {
    Catalog.CatalogGrouping();
    if sel.Only? {
      GroupedFilter(Catalog.Products, sel.category);
    }
  }

  /** The labels the catalog produces: "Showing 15 products" for 'All' and
      "Showing 5 products in C" for each category C. */
  lemma CatalogLabels(sel: Selection)
    ensures CountLabel(|Filtered(Catalog.Products, sel)|, sel) ==
      match sel
      case All => "Showing 15 products"
      case Only(c) => "Showing 5 products in " + CategoryName(c)
  {
    CatalogListing(sel);
    BlockLabels(sel);
  }

  lemma BlockLabels(sel: Selection)
    ensures CountLabel(if sel == All then 15 else 5, sel) ==
      match sel
      case All => "Showing 15 products"
      case Only(c) => "Showing 5 products in " + CategoryName(c)
  {
    match sel
    case All => AllBlockLabel();
    case Only(c) => CategoryBlockLabel(c);
  }

  lemma AllBlockLabel()
    ensures CountLabel(15, All) == "Showing 15 products"
  {
    assert NatToString(15) == "15" by {
      assert 15 / 10 == 1 && 15 % 10 == 5;
    }
  }

  lemma CategoryBlockLabel(c: Category)
    ensures CountLabel(5, Only(c)) == "Showing 5 products in " + CategoryName(c)
  {
    var name := CategoryName(c);
    assert NatToString(5) == "5";
    assert "Showing " + "5" + " product" + "s" == "Showing 5 products";
    assert CountLabel(5, Only(c)) == "Showing 5 products" + (" in " + name);
  }
}
