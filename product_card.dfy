/** One product tile of the listing (src/components/product/ProductCard.tsx): the
    link to the product's page, the out-of-stock badge, the add-to-cart button and
    what pressing it issues. */
module ProductCard {
  import opened Types
  import Catalog

  /** `handleAddToCart`: an out-of-stock product is refused with a notification;
      otherwise the product goes to the cart once and a confirmation follows. */
  function HandleAddToCart(p: Product): (effects: seq<Effect>)
    ensures Occurrences(effects, AddItem(p)) == (if p.inStock then 1 else 0)
    ensures AddCount(effects) == Occurrences(effects, AddItem(p))
    ensures !p.inStock <==> OutOfStockToast in effects
  {
    if !p.inStock then [OutOfStockToast]
    else
      var effects := [AddItem(p), Toast("Added to cart", p.name + " has been added to your cart.", false)];
      OccurrencesAppend([AddItem(p)], [effects[1]], AddItem(p));
      assert effects == [AddItem(p)] + [effects[1]];
      effects
  }

  /** What the tile shows for a product. */
  datatype CardView = CardView(
    link: string,
    showsOutOfStockBadge: bool,
    buttonDisabled: bool,
    buttonLabel: string)

  function Render(p: Product): CardView
  {
    CardView(
      "/product/" + p.id,
      !p.inStock,
      !p.inStock,
      if p.inStock then "Add to Cart" else "Out of Stock")
  }

  /** The badge, the disabled button and the "Out of Stock" label all appear
      together, exactly for an out-of-stock product; an enabled button reads
      "Add to Cart". */
  lemma CardControlsAgree(p: Product)
    ensures Render(p).showsOutOfStockBadge <==> !p.inStock
    ensures Render(p).buttonDisabled <==> Render(p).showsOutOfStockBadge
    ensures Render(p).buttonLabel == (if Render(p).buttonDisabled then "Out of Stock" else "Add to Cart")
  {
  }

  /** Pressing the button: a disabled button does nothing. */
  function Press(p: Product): seq<Effect>
  {
    if Render(p).buttonDisabled then [] else HandleAddToCart(p)
  }

  /** Through the button an out-of-stock product is never added and never reaches
      the refusal branch; an in-stock one is added exactly once. */
  lemma PressAddsOnlyInStock(p: Product)
    ensures AddCount(Press(p)) == (if p.inStock then 1 else 0)
    ensures OutOfStockToast !in Press(p)
    ensures p.inStock ==> Press(p)[0] == AddItem(p)
  {
  }

  /** Two tiles link to the same page exactly when their products share an id. */
  lemma LinkIdentifiesProduct(p: Product, q: Product)
    ensures Render(p).link == Render(q).link <==> p.id == q.id
  {
    var prefix := "/product/";
    if Render(p).link == Render(q).link {
      assert p.id == Render(p).link[|prefix|..];
      assert q.id == Render(q).link[|prefix|..];
    }
  }

  /** On the shipped catalog every tile links to a page of its own, and the tiles
      with the out-of-stock badge are those of products "4", "10" and "15". */
  lemma CatalogCards()
    ensures forall i, j :: 0 <= i < |Catalog.Products| && 0 <= j < |Catalog.Products| && i != j ==>
      Render(Catalog.Products[i]).link != Render(Catalog.Products[j]).link
    ensures forall i :: 0 <= i < |Catalog.Products| ==>
      (Render(Catalog.Products[i]).showsOutOfStockBadge <==> Catalog.Products[i].id in ["4", "10", "15"])
  {
    Catalog.CatalogIdsDistinct();
    Catalog.CatalogStock();
    forall i, j | 0 <= i < |Catalog.Products| && 0 <= j < |Catalog.Products| && i != j
      ensures Render(Catalog.Products[i]).link != Render(Catalog.Products[j]).link
    {
      LinkIdentifiesProduct(Catalog.Products[i], Catalog.Products[j]);
    }
  }
}
